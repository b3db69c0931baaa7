/**
What a message does to a node's epoch, vote, role and bookkeeping, told in the
node's own fields.

A later epoch always wins: whoever hears of one drops leadership and candidacy and
stores it.  A stale request is answered with the node's own epoch, so the sender
learns of it.  Votes are granted, counted and turned into leadership exactly as the
fields say.
*/
module EpochRules {
  import opened Options
  import opened Quorum
  import opened Collections
  import opened Groups
  import opened Cluster
  import opened Turns
  import opened Guards
  import opened SimLeader
  import opened SimAppend
  import opened SimSnapshot

  // ---------------------------------------------------------------- later epochs

  /** What hearing of an epoch later than its own does to a node. */
  ghost predicate GivesWay(s: Node, epoch: nat, r: Outcome) {
    && r.node.epoch == epoch && r.node.role == Follower
    && PersistMeta in r.actions
    && (LostLeadership in r.actions <==> IsLeader(s))
  }

  /** The epoch is the later of the two, and leadership is lost exactly when it is reported lost. */
  ghost predicate FollowsEpoch(s: Node, epoch: nat, r: Outcome) {
    && r.node.epoch == Max(s.epoch, epoch)
    && (epoch > s.epoch ==> GivesWay(s, epoch, r))
    && (LostLeadership in r.actions <==> IsLeader(s) && !IsLeader(r.node))
  }

  lemma FollowEpoch(s: Node, from: Id, epoch: nat)
    requires epoch >= s.epoch
    ensures FollowsEpoch(s, epoch, Follow(s, from, epoch))
  {
    var f := BecomeFollower(s, epoch);
    assert epoch > s.epoch ==> f.actions[0] == PersistMeta;
    assert IsLeader(s) ==> f.actions[|f.actions| - 1] == LostLeadership;
  }

  lemma LowerEpoch(s: Node, epoch: nat)
    requires epoch > s.epoch
    ensures FollowsEpoch(s, epoch, BecomeFollower(s, epoch))
  {
    var f := BecomeFollower(s, epoch);
    assert f.actions[0] == PersistMeta;
    assert IsLeader(s) ==> f.actions[|f.actions| - 1] == LostLeadership;
  }

  lemma AppendEpoch(s: Node, from: Id, m: Msg)
    requires m.Append?
    ensures FollowsEpoch(s, m.epoch, HandleAppend(s, from, m))
  {
    hide Follow, PrevOK, Merge, ApplyRange;
    if m.epoch >= s.epoch {
      FollowDiscipline(s, from, m.epoch);
      FollowEpoch(s, from, m.epoch);
      AppendShape(s, from, m);
    }
  }

  lemma SnapshotEpochs(s: Node, from: Id, m: Msg)
    requires m.InstallSnapshot?
    ensures FollowsEpoch(s, m.epoch, HandleSnapshot(s, from, m))
  {
    hide Follow;
    if m.epoch >= s.epoch {
      FollowDiscipline(s, from, m.epoch);
      FollowEpoch(s, from, m.epoch);
      SnapshotShape(s, from, m);
    }
  }

  lemma VoteReqEpoch(s: Node, from: Id, m: Msg)
    requires m.VoteReq?
    ensures FollowsEpoch(s, m.epoch, HandleVoteReq(s, from, m))
  {
    if m.epoch > s.epoch {
      LowerEpoch(s, m.epoch);
    }
  }

  lemma AnswerEpoch(s: Node, from: Id, m: Msg)
    requires WellFormed(s) && (m.VoteResp? || m.AppendResp?)
    ensures FollowsEpoch(s, m.epoch, Handle(s, from, m))
  {
    hide TryWin, AdvanceCommit, Replicate, BecomeFollower;
    if m.epoch > s.epoch {
      LowerEpoch(s, m.epoch);
    } else if m.VoteResp? {
      TryWinDiscipline(s);
      TryWinDiscipline(s.(role := if s.role.Candidate? then Candidate(s.role.votes + [from]) else s.role));
      StaysLeader(s);
    } else if m.epoch == s.epoch && IsLeader(s) {
      if m.ok {
        RowsPositive(s.role.next, from, m.matchSeq + 1, 0);
        AdvanceCommitShape(s.(role := Leader(SetTo(s.role.next, from, m.matchSeq + 1),
            RaiseTo(s.role.matched, from, m.matchSeq))));
      } else {
        RowsPositive(s.role.next, from, m.matchSeq, s.baseSeq);
        ReplicateShape(s.(role := Leader(BackUpRow(s.role.next, from, s.baseSeq, m.matchSeq), s.role.matched)),
          BackUpRow(s.role.next, from, s.baseSeq, m.matchSeq));
      }
    }
  }

  lemma StaysLeader(s: Node)
    requires WellFormed(s)
    ensures IsLeader(s) ==> TryWin(s) == Outcome(s, [])
  {
  }

  /**
  Every message, every node: the epoch becomes the later of the two; a later one ends
  leadership and candidacy and is stored; and leadership is reported lost exactly
  when it is.
  */
  lemma EpochAfter(s: Node, from: Id, m: Msg)
    requires WellFormed(s)
    ensures var r := Handle(s, from, m);
            && r.node.epoch == Max(s.epoch, m.epoch)
            && (m.epoch > s.epoch ==>
                  r.node.role == Follower && PersistMeta in r.actions && (LostLeadership in r.actions <==> IsLeader(s)))
            && (LostLeadership in r.actions <==> IsLeader(s) && !IsLeader(r.node))
  {
    hide HandleVoteReq, HandleVoteResp, HandleAppend, HandleAppendResp, HandleSnapshot;
    match m
    case VoteReq(_, _, _) => VoteReqEpoch(s, from, m);
    case VoteResp(_, _) => AnswerEpoch(s, from, m);
    case Append(_, _, _, _, _) => AppendEpoch(s, from, m);
    case AppendResp(_, _, _) => AnswerEpoch(s, from, m);
    case InstallSnapshot(_, _, _, _) => SnapshotEpochs(s, from, m);
  }

  /** An answer of a later epoch changes epoch, vote, role and leader and nothing else, and is not answered. */
  lemma LaterAnswer(s: Node, from: Id, m: Msg)
    requires WellFormed(s) && (m.VoteResp? || m.AppendResp?) && m.epoch > s.epoch
    ensures Handle(s, from, m) == Outcome(s.(epoch := m.epoch, votedFor := None, leader := None, role := Follower),
                                          [PersistMeta] + if IsLeader(s) then [LostLeadership] else [])
  {
  }

  /** A stale message changes nothing; a stale request is refused in the node's own epoch. */
  lemma StaleRefused(s: Node, from: Id, m: Msg)
    requires WellFormed(s) && m.epoch < s.epoch
    ensures var r := Handle(s, from, m);
            && r.node == s
            && r.actions == (match m
                             case VoteReq(_, _, _) => [Send(from, VoteResp(s.epoch, false))]
                             case Append(_, _, _, _, _) => [Send(from, AppendResp(s.epoch, 0, false))]
                             case InstallSnapshot(_, _, _, _) => [Send(from, AppendResp(s.epoch, 0, false))]
                             case _ => [])
  {
  }

  /** A leader that has been overtaken gives way as soon as it hears back from one node that moved on. */
  lemma DeposedGivesWay(l: Node, f: Node, m: Msg)
    requires WellFormed(l) && WellFormed(f) && IsLeader(l) && m.epoch == l.epoch < f.epoch
    requires m.Append? || m.InstallSnapshot? || m.VoteReq?
    ensures var reply := Handle(f, l.me, m).actions;
            && |reply| == 1 && reply[0].Send? && reply[0].to == l.me
            && var r := Handle(l, f.me, reply[0].msg);
            r.node.epoch == f.epoch && !IsLeader(r.node) && LostLeadership in r.actions && PersistMeta in r.actions
  {
    hide Handle;
    StaleRefused(f, l.me, m);
    EpochAfter(l, f.me, Handle(f, l.me, m).actions[0].msg);
  }

  // ---------------------------------------------------------------- votes

  /** The candidate's log is at least as recent as the voter's. */
  predicate RecentEnough(s: Node, m: Msg)
    requires m.VoteReq?
  {
    m.lastEpoch > LastEpochOf(s) || (m.lastEpoch == LastEpochOf(s) && m.lastSeq >= LastSeq(s))
  }

  /** The voter's vote in the epoch of the request is free or the candidate's already. */
  predicate MayVote(s: Node, from: Id, m: Msg)
    requires m.VoteReq?
  {
    m.epoch > s.epoch || (m.epoch == s.epoch && (s.votedFor.None? || s.votedFor == Some(from)))
  }

  /**
  A vote is granted if and only if the candidate's log is recent enough and the vote of
  that epoch is free or the candidate's already; it is stored before it is sent, and
  nothing but epoch, vote, role and leader changes.
  */
  lemma VoteExactly(s: Node, from: Id, m: Msg)
    requires m.VoteReq?
    ensures var r := HandleVoteReq(s, from, m);
            var granted := MayVote(s, from, m) && RecentEnough(s, m);
            var later := m.epoch > s.epoch;
            && r.actions != [] && r.actions[|r.actions| - 1] == Send(from, VoteResp(Max(s.epoch, m.epoch), granted))
            && (forall a :: a in r.actions && a.Send? ==> a == r.actions[|r.actions| - 1])
            && (PersistMeta in r.actions <==> later || (granted && s.votedFor.None?))
            && r.node == s.(epoch := Max(s.epoch, m.epoch),
                            votedFor := if granted then Some(from) else if later then None else s.votedFor,
                            leader := if later then None else s.leader,
                            role := if later then Follower else s.role)
  {
    var r := HandleVoteReq(s, from, m);
    var f := if m.epoch > s.epoch then BecomeFollower(s, m.epoch) else Outcome(s, []);
    assert LastSeq(f.node) == LastSeq(s) && LastEpochOf(f.node) == LastEpochOf(s);
    var granted := MayVote(s, from, m) && RecentEnough(s, m);
    var stored := if granted && f.node.votedFor.None? then [PersistMeta] else [];
    assert r.actions == f.actions + stored + [Send(from, VoteResp(Max(s.epoch, m.epoch), granted))];
    if m.epoch > s.epoch {
      assert f.actions[0] == PersistMeta;
    } else if granted && s.votedFor.None? {
      assert r.actions[0] == PersistMeta;
    }
  }

  /** A timeout: the next epoch, a vote for oneself, and a request to everybody else. */
  lemma StandsExactly(s: Node)
    requires WellFormed(s)
    ensures var r := TickElection(s);
            if IsLeader(s) then r == Outcome(s, [])
            else
              && r.node == s.(epoch := s.epoch + 1, votedFor := Some(s.me), leader := None, role := r.node.role)
              && (forall x :: x in s.group && x != s.me <==>
                    Send(x, VoteReq(s.epoch + 1, LastEpochOf(s), LastSeq(s))) in r.actions)
              && (if |s.group| < 2 then IsLeader(r.node) else r.node.role == Candidate([s.me]))
  {
    if !IsLeader(s) {
      var s' := s.(epoch := s.epoch + 1, votedFor := Some(s.me), leader := None, role := Candidate([s.me]));
      var ask := VoteReq(s'.epoch, LastEpochOf(s), LastSeq(s));
      var peers := Others(s.group, s.me);
      TryWinDiscipline(s');
      WinsAtMajority(s');
      SendEachShape(peers, ask);
      OthersShape(s.group, s.me);
      AsksEach(peers, ask);
    }
  }

  lemma {:induction false} AsksEach(peers: seq<Id>, msg: Msg)
    ensures forall x :: x in peers ==> Send(x, msg) in SendEach(peers, msg)
    decreases |peers|
  {
    if peers != [] {
      AsksEach(peers[1..], msg);
    }
  }

  lemma WinsAtMajority(s: Node)
    requires WellFormed(s) && s.role.Candidate?
    ensures var r := TryWin(s);
            if |s.role.votes| >= MajorityOf(s) then IsLeader(r.node) && BecameLeader in r.actions else r == Outcome(s, [])
  {
    hide Replicate;
    if |s.role.votes| >= MajorityOf(s) {
      assert TryWin(s).actions[0] == BecameLeader;
    }
  }

  // ---------------------------------------------------------------- counting votes

  /** One answer to a request for votes. */
  datatype Answer = Answer(from: Id, granted: bool)

  /** A node that hears answers of its own epoch one after the other. */
  function HearAll(s: Node, answers: seq<Answer>): (t: Node)
    requires WellFormed(s)
    ensures WellFormed(t)
    decreases |answers|
  {
    if answers == [] then s
    else
      var a := answers[|answers| - 1];
      HandleVoteResp(HearAll(s, answers[..|answers| - 1]), a.from, VoteResp(s.epoch, a.granted)).node
  }

  /** Who votes for the candidate, itself included. */
  function Voters(me: Id, answers: seq<Answer>): set<Id> {
    {me} + set a | a in answers && a.granted :: a.from
  }

  lemma VotersSnoc(me: Id, answers: seq<Answer>)
    requires answers != []
    ensures var prior, a := answers[..|answers| - 1], answers[|answers| - 1];
            Voters(me, answers) == Voters(me, prior) + if a.granted then {a.from} else {}
  {
    var prior, a := answers[..|answers| - 1], answers[|answers| - 1];
    assert answers == prior + [a];
    forall x | x in Voters(me, prior) + if a.granted then {a.from} else {}
      ensures x in Voters(me, answers)
    {
      if x in Voters(me, prior) && x != me {
        var b :| b in prior && b.granted && b.from == x;
        assert b in answers;
      } else if x != me {
        assert a in answers;
      }
    }
  }

  /** Where a candidate stands after some answers. */
  ghost predicate Counted(s: Node, t: Node, voters: set<Id>) {
    && t == s.(role := t.role)
    && (if 2 * |voters| > |s.group| then IsLeader(t)
        else t.role.Candidate? && NoRepeats(t.role.votes) && voters == set v | v in t.role.votes)
  }

  lemma CountOne(s: Node, t: Node, voters: set<Id>, a: Answer)
    requires WellFormed(s) && WellFormed(t) && Counted(s, t, voters)
    ensures Counted(s, HandleVoteResp(t, a.from, VoteResp(s.epoch, a.granted)).node,
                    voters + if a.granted then {a.from} else {})
  {
    hide TryWin;
    var more := voters + if a.granted then {a.from} else {};
    assert |more| >= |voters| by { SubsetSize(voters, more); }
    StaysLeader(t);
    if a.granted {
      if t.role.Candidate? {
        CountGrant(s, t, voters, a.from);
      }
    } else {
      assert more == voters;
    }
  }

  lemma CountGrant(s: Node, t: Node, voters: set<Id>, from: Id)
    requires WellFormed(s) && WellFormed(t) && Counted(s, t, voters) && t.role.Candidate?
    ensures Counted(s, HandleVoteResp(t, from, VoteResp(s.epoch, true)).node, voters + {from})
  {
    hide TryWin;
    var t' := if from !in t.role.votes then t.(role := Candidate(t.role.votes + [from])) else t;
    NoRepeatsSize(t'.role.votes);
    assert voters + {from} == set v | v in t'.role.votes;
    WinsAtMajority(t');
    TryWinDiscipline(t');
  }

  /** After any answers, in any order and repeated at will, a candidate leads if and only if more than half the group voted for it. */
  lemma {:induction false} LeadsExactly(s: Node, answers: seq<Answer>)
    requires WellFormed(s) && !IsLeader(s)
    ensures var stood := TickElection(s).node;
            Counted(stood, HearAll(stood, answers), Voters(s.me, answers))
    decreases |answers|
  {
    hide TickElection, HandleVoteResp, Counted;
    var stood := TickElection(s).node;
    if answers == [] {
      StandsCounted(s);
    } else {
      LeadsExactly(s, answers[..|answers| - 1]);
      VotersSnoc(s.me, answers);
      CountOne(stood, HearAll(stood, answers[..|answers| - 1]), Voters(s.me, answers[..|answers| - 1]),
        answers[|answers| - 1]);
    }
  }

  lemma StandsCounted(s: Node)
    requires WellFormed(s) && !IsLeader(s)
    ensures Counted(TickElection(s).node, TickElection(s).node, Voters(s.me, []))
  {
    hide TickElection;
    StandsExactly(s);
    assert Voters(s.me, []) == {s.me};
  }

  // ---------------------------------------------------------------- whom a client is sent to

  /** A leader names itself, a follower the leader it heard from, a voter its candidate. */
  lemma HintExactly(s: Node, from: Id, m: Msg)
    requires WellFormed(s)
    ensures IsLeader(s) ==> LeaderHint(s) == Some(s.me)
    ensures (m.Append? || m.InstallSnapshot?) && m.epoch >= s.epoch ==> LeaderHint(Handle(s, from, m).node) == Some(from)
    ensures m.VoteReq? && m.epoch > s.epoch ==>
              LeaderHint(Handle(s, from, m).node) == if RecentEnough(s, m) then Some(from) else None
    ensures (m.VoteResp? || m.AppendResp?) && m.epoch > s.epoch ==> LeaderHint(Handle(s, from, m).node) == None
    ensures !IsLeader(s) ==> LeaderHint(TickElection(s).node) == Some(s.me)
  {
    hide TickElection, HandleVoteReq, HandleAppend, HandleSnapshot, Follow;
    StandsExactly(s);
    if m.VoteReq? {
      VoteExactly(s, from, m);
    } else if m.Append? && m.epoch >= s.epoch {
      FollowDiscipline(s, from, m.epoch);
      AppendShape(s, from, m);
    } else if m.InstallSnapshot? && m.epoch >= s.epoch {
      FollowDiscipline(s, from, m.epoch);
      SnapshotShape(s, from, m);
    }
  }

  // ---------------------------------------------------------------- catching up

  /**
  An accepted Append moves the commit mark to the leader's, at most to the end of the
  log, when the leader's is ahead, and applies exactly what lies between; it is answered
  with the end of the log.  A rejected one moves neither mark and leaves the log alone.
  */
  lemma CatchesUpExactly(s: Node, from: Id, m: Msg)
    requires m.Append? && m.epoch >= s.epoch
    ensures var r := HandleAppend(s, from, m);
            var end := LastSeq(Received(s, m));
            var mark := if m.commit > s.commit then Min(m.commit, end) else s.commit;
            if PrevOK(s, m) then
              && r.node.log == Received(s, m).log && r.node.commit == mark
              && r.node.applied == (if m.commit > s.commit then Max(s.applied, mark) else s.applied)
              && (forall e :: Apply(e) in r.actions <==>
                    m.commit > s.commit && exists q :: s.applied < q <= mark && EntryAt(Received(s, m), q) == Some(e))
              && r.actions != [] && r.actions[|r.actions| - 1] == Send(from, AppendResp(m.epoch, end, true))
            else
              && r.node.log == s.log && r.node.commit == s.commit && r.node.applied == s.applied
              && (forall e :: Apply(e) !in r.actions)
  {
    hide Follow, Merge, PrevOK, ApplyRange, EntryAt;
    FollowDiscipline(s, from, m.epoch);
    SameGuard(s, from, m);
    if PrevOK(s, m) {
      AcceptedIs(s, from, m);
      var f := Follow(s, from, m.epoch).node;
      var end := LastSeq(Received(s, m));
      var hi := Min(m.commit, end);
      assert Received(f, m).log == Received(s, m).log && LastSeq(Received(f, m)) == end;
      SameApplied(Received(f, m), Received(s, m), s.applied, hi);
    }
  }

  lemma SameApplied(s: Node, t: Node, lo: nat, hi: nat)
    requires s.log == t.log && s.baseSeq == t.baseSeq
    ensures forall e :: Apply(e) in ApplyRange(s, lo, hi) <==> exists q :: lo < q <= hi && EntryAt(t, q) == Some(e)
  {
    forall e
      ensures Apply(e) in ApplyRange(s, lo, hi) <==> exists q :: lo < q <= hi && EntryAt(t, q) == Some(e)
    {
      AppliedExactly(s, t, lo, hi, e);
    }
  }

  lemma {:induction false} AppliedExactly(s: Node, t: Node, lo: nat, hi: nat, e: Entry)
    requires s.log == t.log && s.baseSeq == t.baseSeq
    ensures Apply(e) in ApplyRange(s, lo, hi) <==> exists q :: lo < q <= hi && EntryAt(t, q) == Some(e)
    decreases hi - lo
  {
    if lo < hi {
      AppliedExactly(s, t, lo + 1, hi, e);
      assert EntryAt(s, lo + 1) == EntryAt(t, lo + 1);
      if q :| lo < q <= hi && EntryAt(t, q) == Some(e) {
        assert q != lo + 1 ==> lo + 1 < q <= hi;
      }
    }
  }

  // ---------------------------------------------------------------- committing

  /** The rows that have reached `q`. */
  ghost function RowsAt(matched: seq<Progress>, q: nat): set<int> {
    set i | 0 <= i < |matched| && matched[i].at >= q
  }

  lemma {:induction false} CountSnoc(matched: seq<Progress>, p: Progress, q: nat)
    ensures CountReached(matched + [p], q) == CountReached(matched, q) + if p.at >= q then 1 else 0
    decreases |matched|
  {
    if matched == [] {
      assert (matched + [p])[1..] == [];
    } else {
      assert (matched + [p])[1..] == matched[1..] + [p];
      CountSnoc(matched[1..], p, q);
    }
  }

  lemma {:induction false} RowsCounted(matched: seq<Progress>, q: nat)
    ensures CountReached(matched, q) == |RowsAt(matched, q)|
    decreases |matched|
  {
    hide CountReached, RowsAt;
    if matched == [] {
      NoneCounted(q);
    } else {
      var n := |matched| - 1;
      var prior, p := matched[..n], matched[n];
      RowsCounted(prior, q);
      CountSnoc(prior, p, q);
      RowsSnoc(prior, p, q);
      assert matched == prior + [p];
    }
  }

  lemma RowsSnoc(prior: seq<Progress>, p: Progress, q: nat)
    ensures |prior| !in RowsAt(prior, q)
    ensures RowsAt(prior + [p], q) == if p.at >= q then RowsAt(prior, q) + {|prior|} else RowsAt(prior, q)
  {
    forall i
      ensures i in RowsAt(prior + [p], q) <==> i in RowsAt(prior, q) || (i == |prior| && p.at >= q)
    {
    }
  }

  lemma NoneCounted(q: nat)
    ensures CountReached([], q) == 0 && RowsAt([], q) == {}
  {
  }

  /** Leader and rows together: more than half the group has an entry of the leader's own epoch at `q`. */
  ghost predicate Eligible(s: Node, q: nat)
    requires IsLeader(s)
  {
    && EntryAt(s, q).Some? && EntryAt(s, q).value.epoch == s.epoch && q <= LastSeq(s)
    && 2 * (1 + |RowsAt(s.role.matched, q)|) > |s.group|
  }

  /**
  The commit mark of a leader moves to the highest entry of its own epoch that more than
  half the group has, and stays where no such lies above it; everything up to it is
  applied.
  */
  lemma CommitsExactly(s: Node)
    requires WellFormed(s) && IsLeader(s) && s.applied <= s.commit
    ensures var t := AdvanceCommit(s).node;
            && t.commit == t.applied >= s.commit
            && (t.commit > s.commit ==> Eligible(s, t.commit))
            && (forall q :: q > t.commit ==> !Eligible(s, q))
            && t == s.(commit := t.commit, applied := t.applied)
            && (forall e :: Apply(e) in AdvanceCommit(s).actions <==>
                  exists q :: s.applied < q <= t.commit && EntryAt(s, q) == Some(e))
  {
    hide ScanCommit, CountReached, EntryAt, ApplyRange, Replicate;
    AdvanceIs(s);
    ScanCommitMeaning(s, s.commit + 1, s.commit);
    forall q
      ensures Replicas(s.role.matched, q) == 1 + |RowsAt(s.role.matched, q)|
    {
      RowsCounted(s.role.matched, q);
    }
    var t := CommitNode(s);
    ReplicateShape(t, t.role.next);
    SameApplied(s, s, s.applied, t.commit);
  }

  // ---------------------------------------------------------------- a leader's rows

  /** What the bookkeeping says of a peer. */
  function RowOf(ps: seq<Progress>, id: Id): Option<nat> {
    if ps == [] then None else if ps[0].id == id then Some(ps[0].at) else RowOf(ps[1..], id)
  }

  lemma {:induction false} RowsMove(ps: seq<Progress>, id: Id, at: nat, base: nat, x: Id)
    ensures RowOf(SetTo(ps, id, at), x) == if x == id && RowOf(ps, x).Some? then Some(at) else RowOf(ps, x)
    ensures RowOf(RaiseTo(ps, id, at), x) == if x == id && RowOf(ps, x).Some? then Some(Max(RowOf(ps, x).value, at)) else RowOf(ps, x)
    ensures RowOf(BackUpRow(ps, id, base, at), x)
         == if x == id && RowOf(ps, x).Some? then Some(BackUp(base, RowOf(ps, x).value, at)) else RowOf(ps, x)
    decreases |ps|
  {
    if ps != [] {
      RowsMove(ps[1..], id, at, base, x);
    }
  }

  /**
  An answer of its own epoch moves a leader's rows for the sender alone: an
  acknowledgement puts the next entry right after it and never lowers what is known
  to be stored, a rejection lowers the next entry and nothing else.
  */
  lemma RowsExactly(s: Node, from: Id, m: Msg, x: Id)
    requires WellFormed(s) && IsLeader(s) && m.AppendResp? && m.epoch == s.epoch
    ensures var t := HandleAppendResp(s, from, m).node;
            && IsLeader(t) && t.log == s.log && t.baseSeq == s.baseSeq && t.votedFor == s.votedFor
            && (x != from ==> RowOf(t.role.next, x) == RowOf(s.role.next, x) && RowOf(t.role.matched, x) == RowOf(s.role.matched, x))
            && (m.ok && RowOf(s.role.next, from).Some? ==> RowOf(t.role.next, from) == Some(m.matchSeq + 1))
            && (m.ok && RowOf(s.role.matched, from).Some? ==>
                  RowOf(t.role.matched, from) == Some(Max(RowOf(s.role.matched, from).value, m.matchSeq)))
            && (!m.ok ==> t.role.matched == s.role.matched && t.commit == s.commit && t.applied == s.applied)
            && (!m.ok && RowOf(s.role.next, from).Some? ==>
                  RowOf(t.role.next, from) == Some(BackUp(s.baseSeq, RowOf(s.role.next, from).value, m.matchSeq)))
  {
    hide AdvanceCommit, Replicate, SetTo, RaiseTo, BackUpRow;
    RowsMove(s.role.next, from, if m.ok then m.matchSeq + 1 else m.matchSeq, s.baseSeq, x);
    RowsMove(s.role.next, from, if m.ok then m.matchSeq + 1 else m.matchSeq, s.baseSeq, from);
    RowsMove(s.role.matched, from, m.matchSeq, s.baseSeq, x);
    RowsMove(s.role.matched, from, m.matchSeq, s.baseSeq, from);
    if m.ok {
      RowsPositive(s.role.next, from, m.matchSeq + 1, 0);
      AdvanceCommitShape(s.(role := Leader(SetTo(s.role.next, from, m.matchSeq + 1),
          RaiseTo(s.role.matched, from, m.matchSeq))));
    } else {
      RowsPositive(s.role.next, from, m.matchSeq, s.baseSeq);
    }
  }
}
