/**
The replica object, updated in place.

Each method is proved equal to the function of module Quorum it implements, so
what the other modules prove about those functions holds of the object.
*/
module RaftNode {
  import opened Options
  import opened Quorum
  import opened Turns
  import opened Mirror

  datatype Proposal = Accepted(seqno: nat, actions: seq<Action>) | NotLeader(hint: Option<Id>)

  class Raft {
    var me: Id
    var group: seq<Id>
    var epoch: nat
    var votedFor: Option<Id>
    var log: seq<Entry>
    var baseSeq: nat
    var baseEpoch: nat
    var commit: nat
    var applied: nat
    var role: Role
    var leader: Option<Id>

    function View(): Node
      reads this
    {
      Node(me, group, epoch, votedFor, log, baseSeq, baseEpoch, commit, applied, role, leader)
    }

    /** A leader's rows all point at a sequence number of at least one. */
    predicate Valid()
      reads this
    {
      WellFormed(View())
    }

    constructor (me: Id, group: seq<Id>)
      ensures Valid() && View() == New(me, group)
    {
      this.me := me;
      this.group := Sort(if me in group then group else group + [me]);
      this.epoch, this.votedFor, this.log := 0, None, [];
      this.baseSeq, this.baseEpoch, this.commit, this.applied := 0, 0, 0, 0;
      this.role, this.leader := Follower, None;
    }

    constructor Restore(me: Id, group: seq<Id>, epoch: nat, votedFor: Option<Id>, baseSeq: nat, baseEpoch: nat,
                        log: seq<Entry>, applied: nat)
      ensures Valid() && View() == Quorum.Restore(me, group, epoch, votedFor, baseSeq, baseEpoch, log, applied)
    {
      this.me := me;
      this.group := Sort(if me in group then group else group + [me]);
      this.epoch, this.votedFor, this.log := epoch, votedFor, log;
      this.baseSeq, this.baseEpoch := baseSeq, baseEpoch;
      this.commit, this.applied := Max(applied, baseSeq), Max(applied, baseSeq);
      this.role, this.leader := Follower, None;
    }

    method Compact(keepTail: nat) returns (dropped: bool)
      requires Valid()
      modifies this`log, this`baseSeq, this`baseEpoch
      ensures Valid() && View() == Quorum.Compact(old(View()), keepTail)
      ensures dropped <==> View() != old(View())
      ensures old(baseSeq) <= applied <= old(baseSeq) + |old(log)| ==>
                && (dropped <==> applied > old(baseSeq) + keepTail)
                && baseSeq == Max(old(baseSeq), if applied >= keepTail then applied - keepTail else 0)
                && log == old(log)[baseSeq - old(baseSeq)..]
    {
      if baseSeq <= applied <= baseSeq + |log| {
        CompactExactly(View(), keepTail);
      }
      var newBase := if applied >= keepTail then applied - keepTail else 0;
      if newBase <= baseSeq {
        return false;
      }
      var e := EntryAt(View(), newBase);
      if e.None? {
        return false;
      }
      log := log[newBase - baseSeq..];
      baseSeq, baseEpoch := newBase, e.value.epoch;
      return true;
    }

    method TickElection() returns (actions: seq<Action>)
      requires Valid()
      modifies this`epoch, this`votedFor, this`leader, this`role
      ensures Valid() && Outcome(View(), actions) == Quorum.TickElection(old(View()))
    {
      hide Quorum.TryWin, Others;
      if IsLeader(View()) {
        return [];
      }
      epoch, votedFor, leader := epoch + 1, Some(me), None;
      role := Candidate([me]);
      var lastEpoch, lastSeq := LastEpochOf(View()), LastSeq(View());
      actions := [PersistMeta];
      var peers := Others(group, me);
      var ask := VoteReq(epoch, lastEpoch, lastSeq);
      for i := 0 to |peers|
        invariant actions + SendEach(peers[i..], ask) == [PersistMeta] + SendEach(peers, ask)
      {
        actions := actions + [Send(peers[i], ask)];
        assert peers[i..][1..] == peers[i + 1..];
      }
      var won := TryWin();
      actions := actions + won;
    }

    method Heartbeat() returns (actions: seq<Action>)
      requires Valid()
      ensures actions == Quorum.Heartbeat(View()).actions
    {
      if !IsLeader(View()) {
        return [];
      }
      actions := ReplicateAll();
    }

    method Propose(cmd: Command) returns (r: Proposal)
      requires Valid()
      modifies this`log, this`commit, this`applied
      ensures Valid()
      ensures r.NotLeader? <==> !IsLeader(old(View()))
      ensures r.NotLeader? ==> View() == old(View()) && r.hint == LeaderHint(old(View()))
      ensures r.Accepted? ==>
                && Outcome(View(), r.actions) == Quorum.Propose(old(View()), cmd)
                && r.seqno == LastSeq(old(View())) + 1
    {
      if !IsLeader(View()) {
        return NotLeader(LeaderHint(View()));
      }
      var q := LastSeq(View()) + 1;
      log := log + [Entry(epoch, q, cmd)];
      var actions := [PersistLog(q)];
      var sent := ReplicateAll();
      var advanced := AdvanceCommit();
      r := Proposal.Accepted(q, actions + sent + advanced);
    }

    method BecomeFollower(newEpoch: nat) returns (actions: seq<Action>)
      modifies this`epoch, this`votedFor, this`leader, this`role
      ensures Valid() && Outcome(View(), actions) == Quorum.BecomeFollower(old(View()), newEpoch)
    {
      var wasLeader := IsLeader(View());
      var bump := newEpoch > epoch;
      if bump {
        epoch, votedFor, leader := newEpoch, None, None;
      }
      role := Follower;
      actions := [];
      if bump {
        actions := actions + [PersistMeta];
      }
      if wasLeader {
        actions := actions + [LostLeadership];
      }
    }

    method TryWin() returns (actions: seq<Action>)
      requires Valid()
      modifies this`role
      ensures Valid() && Outcome(View(), actions) == Quorum.TryWin(old(View()))
    {
      if !role.Candidate? || |role.votes| < MajorityOf(View()) {
        return [];
      }
      var peers := Others(group, me);
      var nextSeq := LastSeq(View()) + 1;
      TrackEachAt(peers, nextSeq);
      role := Leader(TrackEach(peers, nextSeq), TrackEach(peers, 0));
      var sent := ReplicateAll();
      actions := [BecameLeader] + sent;
    }

    method ReplicateAll() returns (actions: seq<Action>)
      requires Valid()
      ensures actions == Quorum.ReplicateAll(View())
    {
      if !role.Leader? {
        return [];
      }
      hide ReplicateOne, EntriesFrom, EpochAt;
      actions := [];
      var rows := role.next;
      for i := 0 to |rows|
        invariant AllPositive(rows[i..]) && actions + Replicate(View(), rows[i..]) == Replicate(View(), rows)
      {
        assert rows[i..][0] == rows[i] && rows[i..][1..] == rows[i + 1..];
        var a := ReplicateTo(rows[i]);
        actions := actions + [a];
      }
    }

    /** What one peer is sent: the tail from its row on, or a snapshot when that is compacted away. */
    method ReplicateTo(row: Progress) returns (action: Action)
      requires row.at > 0
      ensures action == ReplicateOne(View(), row)
    {
      hide EntriesFrom, EpochAt;
      var prevSeq := row.at - 1;
      if prevSeq < baseSeq {
        return NeedSnapshot(row.id);
      }
      var at := EpochAt(View(), prevSeq);
      var prevEpoch := if at.Some? then at.value else 0;
      return Send(row.id, Append(epoch, prevSeq, prevEpoch, EntriesFrom(log, row.at), commit));
    }

    method AdvanceCommit() returns (actions: seq<Action>)
      requires Valid()
      modifies this`commit, this`applied
      ensures Valid() && Outcome(View(), actions) == Quorum.AdvanceCommit(old(View()))
    {
      if !role.Leader? {
        return [];
      }
      var last: nat, candidate: nat, n: nat := LastSeq(View()), commit, commit + 1;
      while n <= last
        invariant commit < n && ScanCommit(View(), n, candidate) == ScanCommit(View(), commit + 1, commit)
        invariant n > last ==> candidate == ScanCommit(View(), commit + 1, commit)
      {
        if Replicas(role.matched, n) < MajorityOf(View()) {
          break;
        }
        var e := EntryAt(View(), n);
        if e.Some? && e.value.epoch == epoch {
          candidate := n;
        }
        n := n + 1;
      }
      ScanAtLeast(View(), commit + 1, commit);
      var advanced := candidate > commit;
      if advanced {
        commit := candidate;
      }
      actions := ApplyCommitted();
      if advanced {
        var sent := ReplicateAll();
        actions := actions + sent;
      }
    }

    method ApplyCommitted() returns (actions: seq<Action>)
      modifies this`applied
      ensures Outcome(View(), actions) == Quorum.ApplyCommitted(old(View()))
    {
      hide EntryAt, ApplyRange;
      actions := [];
      ghost var s := View();
      while applied < commit
        invariant s.applied <= applied && (applied <= commit || applied == s.applied)
        invariant View() == s.(applied := applied)
        invariant actions + ApplyRange(s, applied, commit) == ApplyRange(s, s.applied, commit)
      {
        ghost var rest := ApplyRange(s, applied + 1, commit);
        ApplyRangeStep(s, applied, commit);
        applied := applied + 1;
        var e := EntryAt(View(), applied);
        SameEntry(s, View(), applied);
        if e.Some? {
          assert actions + ([Apply(e.value)] + rest) == actions + [Apply(e.value)] + rest;
          actions := actions + [Apply(e.value)];
        } else {
          assert actions + ([] + rest) == actions + rest;
        }
      }
      ApplyRangeEmpty(s, applied, commit);
    }

    method Handle(from: Id, msg: Msg) returns (actions: seq<Action>)
      requires Valid()
      modifies this
      ensures Valid() && Outcome(View(), actions) == Quorum.Handle(old(View()), from, msg)
    {
      match msg
      case VoteReq(_, _, _) => actions := HandleVoteReq(from, msg);
      case VoteResp(_, _) => actions := HandleVoteResp(from, msg);
      case Append(_, _, _, _, _) => actions := HandleAppend(from, msg);
      case AppendResp(_, _, _) => actions := HandleAppendResp(from, msg);
      case InstallSnapshot(_, _, _, _) => actions := HandleSnapshot(from, msg);
    }

    method HandleVoteReq(from: Id, msg: Msg) returns (actions: seq<Action>)
      requires Valid() && msg.VoteReq?
      modifies this`epoch, this`votedFor, this`leader, this`role
      ensures Valid() && Outcome(View(), actions) == Quorum.HandleVoteReq(old(View()), from, msg)
    {
      actions := [];
      if msg.epoch > epoch {
        actions := BecomeFollower(msg.epoch);
      }
      var lastEpoch, lastSeq := LastEpochOf(View()), LastSeq(View());
      var upToDate := msg.lastEpoch > lastEpoch || (msg.lastEpoch == lastEpoch && msg.lastSeq >= lastSeq);
      var granted := msg.epoch == epoch && upToDate && (votedFor.None? || votedFor == Some(from));
      if granted && votedFor.None? {
        votedFor := Some(from);
        actions := actions + [PersistMeta];
      }
      actions := actions + [Send(from, VoteResp(epoch, granted))];
    }

    method HandleVoteResp(from: Id, msg: Msg) returns (actions: seq<Action>)
      requires Valid() && msg.VoteResp?
      modifies this`epoch, this`votedFor, this`leader, this`role
      ensures Valid() && Outcome(View(), actions) == Quorum.HandleVoteResp(old(View()), from, msg)
    {
      if msg.epoch > epoch {
        actions := BecomeFollower(msg.epoch);
        return;
      }
      if msg.epoch != epoch || !msg.granted {
        return [];
      }
      if role.Candidate? && from !in role.votes {
        role := Candidate(role.votes + [from]);
      }
      actions := TryWin();
    }

    method Follow(from: Id, newEpoch: nat) returns (actions: seq<Action>)
      modifies this`epoch, this`votedFor, this`leader, this`role
      ensures Valid() && Outcome(View(), actions) == Quorum.Follow(old(View()), from, newEpoch)
    {
      actions := BecomeFollower(newEpoch);
      leader := Some(from);
      if votedFor.None? {
        votedFor := Some(from);
        actions := actions + [PersistMeta];
      }
    }

    /** Append the received entries, truncating any conflicting suffix; tells where the first change is. */
    method MergeEntries(entries: seq<Entry>) returns (persistFrom: Option<nat>)
      modifies this`log
      ensures View() == old(View()).(log := log)
      ensures Merged(log, persistFrom) == Merge(baseSeq, Merged(old(log), None), entries)
    {
      persistFrom := None;
      for i := 0 to |entries|
        invariant Merge(baseSeq, Merged(log, persistFrom), entries[i..]) == Merge(baseSeq, Merged(old(log), None), entries)
      {
        var e := entries[i];
        assert entries[i..][1..] == entries[i + 1..];
        if e.seqno > baseSeq {
          var existing := EntryAt(View(), e.seqno);
          if !(existing.Some? && existing.value.epoch == e.epoch) {
            var keep := e.seqno - baseSeq - 1;
            if keep < |log| {
              log := log[..keep];
            }
            if persistFrom.None? {
              persistFrom := Some(e.seqno);
            }
            log := log + [e];
          }
        }
      }
      assert entries[|entries|..] == [];
    }

    method HandleAppend(from: Id, msg: Msg) returns (actions: seq<Action>)
      requires Valid() && msg.Append?
      modifies this
      ensures Valid() && Outcome(View(), actions) == Quorum.HandleAppend(old(View()), from, msg)
    {
      if msg.epoch < epoch {
        return [Send(from, AppendResp(epoch, 0, false))];
      }
      actions := Follow(from, msg.epoch);
      if !PrevOK(View(), msg) {
        var hint := Max(Min(LastSeq(View()), msg.prevSeq - 1), baseSeq);
        actions := actions + [Send(from, AppendResp(epoch, hint, false))];
        return;
      }
      var persistFrom := MergeEntries(msg.entries);
      if persistFrom.Some? {
        actions := actions + [PersistLog(persistFrom.value)];
      }
      var matchSeq := LastSeq(View());
      if msg.commit > commit {
        commit := Min(msg.commit, matchSeq);
        var applies := ApplyCommitted();
        actions := actions + applies;
      }
      actions := actions + [Send(from, AppendResp(epoch, matchSeq, true))];
    }

    method HandleSnapshot(from: Id, msg: Msg) returns (actions: seq<Action>)
      requires Valid() && msg.InstallSnapshot?
      modifies this
      ensures Valid() && Outcome(View(), actions) == Quorum.HandleSnapshot(old(View()), from, msg)
    {
      if msg.epoch < epoch {
        return [Send(from, AppendResp(epoch, 0, false))];
      }
      actions := Follow(from, msg.epoch);
      if msg.lastSeq <= applied {
        actions := actions + [Send(from, AppendResp(epoch, LastSeq(View()), true))];
        return;
      }
      log := [];
      baseSeq, baseEpoch := msg.lastSeq, msg.lastEpoch;
      commit, applied := msg.lastSeq, msg.lastSeq;
      actions := actions + [ApplySnapshot(msg.lastSeq, msg.data)];
      actions := actions + [PersistMeta];
      actions := actions + [PersistLog(msg.lastSeq + 1)];
      actions := actions + [Send(from, AppendResp(epoch, msg.lastSeq, true))];
    }

    method HandleAppendResp(from: Id, msg: Msg) returns (actions: seq<Action>)
      requires Valid() && msg.AppendResp?
      modifies this
      ensures Valid() && Outcome(View(), actions) == Quorum.HandleAppendResp(old(View()), from, msg)
    {
      if msg.epoch > epoch {
        actions := BecomeFollower(msg.epoch);
        return;
      }
      if msg.epoch != epoch || !role.Leader? {
        return [];
      }
      RowsPositive(role.next, from, msg.matchSeq + 1, 0);
      RowsPositive(role.next, from, msg.matchSeq, baseSeq);
      if msg.ok {
        role := Leader(SetTo(role.next, from, msg.matchSeq + 1), RaiseTo(role.matched, from, msg.matchSeq));
        actions := AdvanceCommit();
      } else {
        role := Leader(BackUpRow(role.next, from, baseSeq, msg.matchSeq), role.matched);
        actions := ReplicateAll();
      }
    }
  }

  lemma {:induction false} ScanAtLeast(s: Node, n: nat, candidate: nat)
    requires s.role.Leader? && candidate < n
    ensures candidate <= ScanCommit(s, n, candidate)
    decreases LastSeq(s) + 1 - n
  {
    if n <= LastSeq(s) && Replicas(s.role.matched, n) >= MajorityOf(s) {
      ScanAtLeast(s, n + 1, if EntryAt(s, n).Some? && EntryAt(s, n).value.epoch == s.epoch then n else candidate);
    }
  }

  lemma ApplyRangeStep(s: Node, lo: nat, hi: nat)
    requires lo < hi
    ensures var e := EntryAt(s, lo + 1);
            ApplyRange(s, lo, hi) == (if e.Some? then [Apply(e.value)] else []) + ApplyRange(s, lo + 1, hi)
  {
  }

  lemma ApplyRangeEmpty(s: Node, lo: nat, hi: nat)
    requires lo >= hi
    ensures ApplyRange(s, lo, hi) == []
  {
  }

  lemma SameEntry(s: Node, t: Node, q: nat)
    requires t == s.(applied := t.applied)
    ensures EntryAt(t, q) == EntryAt(s, q)
  {
  }
}
