/** Timeouts and votes keep the simulation. */
module SimElections {
  import opened Options
  import opened Quorum
  import opened Collections
  import opened Groups
  import opened Cluster
  import opened Turns
  import opened Protocol
  import opened ProtocolSteps
  import opened Mirror
  import opened Storage
  import opened Simulation
  import opened SimMoves

  predicate Quiet(a: Action) {
    !a.PersistLog? && !a.Apply? && !a.ApplySnapshot?
  }

  /** The turn leaves the log, the snapshot point and the commit mark alone. */
  predicate SameData(s: Node, s': Node) {
    && s'.me == s.me && s'.group == s.group
    && s'.log == s.log && s'.baseSeq == s.baseSeq && s'.baseEpoch == s.baseEpoch
    && s'.commit == s.commit && s'.applied == s.applied
  }

  predicate QuietOutcome(s: Node, r: Outcome) {
    && SameData(s, r.node) && WellFormed(r.node)
    && (forall a :: a in r.actions ==> Quiet(a))
    && (PersistMeta in r.actions || (r.node.epoch == s.epoch && r.node.votedFor == s.votedFor))
  }

  lemma QuietTurn(strict: bool, m: Machine, group: seq<Id>, w: World, w': World, id: Id, h: Host, r: Outcome)
    requires HostOK(strict, m, group, w, id, h) && QuietOutcome(h.node, r)
    requires id in w'.members && w'.members[id].log == w.members[id].log
    requires Mirrors(r.node, w'.members[id]) && VoteBacked(w'.h, id, w'.members[id])
    requires SendsOK(strict, m, w', id, r.actions)
    requires strict ==> RowsOK(w'.h, r.node, w'.members[id].log) && Settled(r.node)
    ensures TurnOK(strict, m, group, w', id, h, r)
  {
    SaveKeepsLog(m, r.node, h.disk, r.actions);
    SaveMetaEffect(m, r.node, h.disk, r.actions);
    if strict {
      IdlePaced(m, w'.members[id].log, r.node.applied, r.actions, r.node.applied);
    }
  }

  // ---------------------------------------------------------------- timeout

  function AsCandidate(s: Node): Node {
    s.(epoch := s.epoch + 1, votedFor := Some(s.me), leader := None, role := Candidate([s.me]))
  }

  lemma RunMove(strict: bool, w: World, s: Node)
    requires Ready(strict, w, s.me) && Mirrors(s, w.members[s.me])
    ensures var w' := Run(w, s.me);
            && Moved(strict, w, w', s.me) && Mirrors(AsCandidate(s), w'.members[s.me])
            && VoteBacked(w'.h, s.me, w'.members[s.me])
            && w'.h.bids[Ballot(s.me, s.epoch + 1)] == w'.members[s.me].log == w.members[s.me].log
  {
    var n := s.me;
    RunKeeps(w, n);
    assert MemberOK(w, n, w.members[n]);
    SameLogMove(strict, w, Run(w, n), n);
  }

  lemma RequestsOK(strict: bool, m: Machine, w: World, s: Node)
    requires s.me in w.members && (forall x :: x in s.group ==> x in w.members)
    requires Ballot(s.me, s.epoch + 1) in w.h.bids && w.h.bids[Ballot(s.me, s.epoch + 1)] == w.members[s.me].log
    requires LastEpochOf(s) == LastEpoch(w.members[s.me].log) && LastSeq(s) == |w.members[s.me].log|
    ensures SendsOK(strict, m, w, s.me, SendEach(Others(s.group, s.me), VoteReq(s.epoch + 1, LastEpochOf(s), LastSeq(s))))
  {
    var msg := VoteReq(s.epoch + 1, LastEpochOf(s), LastSeq(s));
    SendEachShape(Others(s.group, s.me), msg);
    OthersShape(s.group, s.me);
    forall a | a in SendEach(Others(s.group, s.me), msg)
      ensures SendOK(strict, m, w, s.me, a)
    {
      assert a.Send? && a.msg == msg && a.to in Others(s.group, s.me);
    }
  }

  lemma TimeoutStep(strict: bool, m: Machine, group: seq<Id>, w: World, id: Id, h: Host) returns (w': World)
    requires Here(strict, m, group, w, id, h)
    ensures Answers(strict, m, group, w, w', id, h, TickElection(h.node))
  {
    hide Inv, CommitInv, Grows, Save, TryWin, Replicate;
    if IsLeader(h.node) {
      w' := w;
      MovedNot(strict, w, id);
      QuietTurn(strict, m, group, w, w', id, h, TickElection(h.node));
    } else {
      w' := CandidateMove(strict, m, group, w, h.node);
      TimeoutShape(h.node);
      QuietTurn(strict, m, group, w, w', id, h, TickElection(h.node));
    }
  }

  lemma CandidateMove(strict: bool, m: Machine, group: seq<Id>, w: World, s: Node) returns (w': World)
    requires Ready(strict, w, s.me) && GroupOK(group, w) && Mirrors(s, w.members[s.me])
    requires s.group == Sort(group) && WellFormed(s) && !IsLeader(s) && (!strict ==> s.baseSeq == 0)
    ensures Moved(strict, w, w', s.me) && w'.members[s.me].log == w.members[s.me].log
    ensures Mirrors(TickElection(s).node, w'.members[s.me]) && VoteBacked(w'.h, s.me, w'.members[s.me])
    ensures SendsOK(strict, m, w', s.me, TickElection(s).actions)
    ensures RowsOK(w'.h, TickElection(s).node, w'.members[s.me].log) && Settled(TickElection(s).node)
  {
    hide Inv, CommitInv, Grows, TryWin, Replicate, Mirrors, RowsOK, Settled, SendsOK, StandingOK;
    SortedGroup(group);
    RunMove(strict, w, s);
    var w1 := Run(w, s.me);
    assert WellFormed(AsCandidate(s));
    w' := TryWinMove(strict, m, group, w1, AsCandidate(s));
    MovedTwice(strict, w, w1, w', s.me);
    CandidateSends(strict, m, group, w, w', s);
    assert TickElection(s).node == TryWin(AsCandidate(s)).node;
  }

  lemma CandidateSends(strict: bool, m: Machine, group: seq<Id>, w: World, w': World, s: Node)
    requires Inv(w) && s.me in w.members && s.me in w'.members && Mirrors(s, w.members[s.me])
    requires w'.members[s.me].log == w.members[s.me].log
    requires WellFormed(s) && !IsLeader(s)
    requires forall x :: x in s.group ==> x in w'.members
    requires Ballot(s.me, s.epoch + 1) in w'.h.bids && w'.h.bids[Ballot(s.me, s.epoch + 1)] == w'.members[s.me].log
    requires SendsOK(strict, m, w', s.me, TryWin(AsCandidate(s)).actions)
    ensures SendsOK(strict, m, w', s.me, TickElection(s).actions)
  {
    hide Inv, TryWin, Replicate, SendsOK;
    ReadMember(w, s.me, s);
    RequestsOK(strict, m, w', s);
    TimeoutSends(strict, m, w', s);
  }

  lemma SendsConcat(strict: bool, m: Machine, w: World, id: Id, a: seq<Action>, b: seq<Action>)
    requires SendsOK(strict, m, w, id, a) && SendsOK(strict, m, w, id, b)
    ensures SendsOK(strict, m, w, id, a + b)
  {
    forall x | x in a + b
      ensures SendOK(strict, m, w, id, x)
    {
      assert x in a || x in b;
    }
  }

  lemma TimeoutSends(strict: bool, m: Machine, w': World, s: Node)
    requires WellFormed(s) && !IsLeader(s)
    requires SendsOK(strict, m, w', s.me, SendEach(Others(s.group, s.me), VoteReq(s.epoch + 1, LastEpochOf(s), LastSeq(s))))
    requires SendsOK(strict, m, w', s.me, TryWin(AsCandidate(s)).actions)
    ensures SendsOK(strict, m, w', s.me, TickElection(s).actions)
  {
    var won := TryWin(AsCandidate(s)).actions;
    var sent := SendEach(Others(s.group, s.me), VoteReq(s.epoch + 1, LastEpochOf(s), LastSeq(s)));
    SendsConcat(strict, m, w', s.me, [PersistMeta], sent);
    SendsConcat(strict, m, w', s.me, [PersistMeta] + sent, won);
    assert TickElection(s).actions == [PersistMeta] + sent + won;
  }

  // ---------------------------------------------------------------- vote requests

  lemma VoteReqStep(strict: bool, m: Machine, group: seq<Id>, w: World, id: Id, h: Host, from: Id, msg: Msg)
    returns (w': World)
    requires Here(strict, m, group, w, id, h)
    requires msg.VoteReq? && from in w.members && from != id && MsgOK(strict, m, w, from, id, msg)
    ensures Answers(strict, m, group, w, w', id, h, Handle(h.node, from, msg))
  {
    hide Inv, CommitInv, Grows, Save, TryWin, Replicate, HandleVoteReq, BecomeFollower, RowsOK, Settled;
    w' := VoteReqMove(strict, m, w, id, h.node, from, msg);
    var r := HandleVoteReq(h.node, from, msg);
    VoteReqShape(h.node, from, msg);
    if strict {
      RowsKept(w.h, w'.h, h.node, r.node, w.members[id].log);
    }
    assert SendOK(strict, m, w', id, Send(from, VoteResp(r.node.epoch, Granted(Raised(h.node, msg.epoch), from, msg))));
    QuietTurn(strict, m, group, w, w', id, h, r);
  }

  /** The node after a message of a higher epoch made it step down. */
  function Raised(s: Node, e: nat): Node {
    if e > s.epoch then BecomeFollower(s, e).node else s
  }

  lemma VoteReqMove(strict: bool, m: Machine, w: World, id: Id, s: Node, from: Id, msg: Msg) returns (w': World)
    requires Ready(strict, w, id) && Mirrors(s, w.members[id]) && VoteBacked(w.h, id, w.members[id])
    requires msg.VoteReq? && from in w.members && from != id && MsgOK(strict, m, w, from, id, msg)
    ensures Moved(strict, w, w', id) && w'.members[id].log == w.members[id].log && w'.h.acks == w.h.acks
    ensures var s1 := Raised(s, msg.epoch);
            var s2 := if Granted(s1, from, msg) && s1.votedFor.None? then s1.(votedFor := Some(from)) else s1;
            Mirrors(s2, w'.members[id]) && VoteBacked(w'.h, id, w'.members[id])
    ensures MsgOK(strict, m, w', id, from, VoteResp(Raised(s, msg.epoch).epoch, Granted(Raised(s, msg.epoch), from, msg)))
  {
    hide Inv, CommitInv, Grows, Granted;
    MovedNot(strict, w, id);
    var w1 := w;
    if msg.epoch > s.epoch {
      w1 := Lower(w, id, msg.epoch);
      LowerMove(strict, w, id, s, msg.epoch);
    }
    w' := BallotMove(strict, m, w1, id, Raised(s, msg.epoch), from, msg);
    MovedTwice(strict, w, w1, w', id);
  }

  predicate Granted(s1: Node, from: Id, msg: Msg)
    requires msg.VoteReq?
  {
    && msg.epoch == s1.epoch
    && (msg.lastEpoch > LastEpochOf(s1) || (msg.lastEpoch == LastEpochOf(s1) && msg.lastSeq >= LastSeq(s1)))
    && (s1.votedFor.None? || s1.votedFor == Some(from))
  }

  lemma VoteReqShape(s: Node, from: Id, msg: Msg)
    requires msg.VoteReq? && WellFormed(s)
    ensures var s1 := Raised(s, msg.epoch);
            var r := HandleVoteReq(s, from, msg);
            && r.node == (if Granted(s1, from, msg) && s1.votedFor.None? then s1.(votedFor := Some(from)) else s1)
            && (forall a :: a in r.actions && a.Send? ==> a == Send(from, VoteResp(r.node.epoch, Granted(s1, from, msg))))
            && (forall a :: a in r.actions ==> Quiet(a) && !a.NeedSnapshot?)
            && QuietOutcome(s, r)
            && (r.node.role.Follower? || (r.node.role == s.role && r.node.epoch == s.epoch))
  {
  }

  /** A leader's bookkeeping survives a turn that does not touch it. */
  lemma RowsKept(h: History, h': History, s: Node, s': Node, full: seq<Entry>)
    requires RowsOK(h, s, full) && Settled(s) && h'.acks == h.acks
    requires SameData(s, s') && (s'.role.Follower? || (s'.role == s.role && s'.epoch == s.epoch))
    ensures RowsOK(h', s', full) && Settled(s')
  {
    if s'.role.Leader? {
      forall q | s'.commit < q <= LastSeq(s') && Replicas(s'.role.matched, q) >= MajorityOf(s')
        ensures !(EntryAt(s', q).Some? && EntryAt(s', q).value.epoch == s'.epoch)
      {
        assert EntryAt(s', q) == EntryAt(s, q);
      }
    }
  }

  lemma BallotMove(strict: bool, m: Machine, w1: World, id: Id, s1: Node, from: Id, msg: Msg) returns (w': World)
    requires Ready(strict, w1, id) && Mirrors(s1, w1.members[id]) && VoteBacked(w1.h, id, w1.members[id])
    requires msg.VoteReq? && from in w1.members && from != id && msg.epoch <= s1.epoch
    requires MsgOK(strict, m, w1, from, id, msg)
    ensures Moved(strict, w1, w', id) && w'.members[id].log == w1.members[id].log
    ensures w'.h.acks == w1.h.acks
    ensures var s2 := if Granted(s1, from, msg) && s1.votedFor.None? then s1.(votedFor := Some(from)) else s1;
            Mirrors(s2, w'.members[id]) && VoteBacked(w'.h, id, w'.members[id])
    ensures MsgOK(strict, m, w', id, from, VoteResp(s1.epoch, Granted(s1, from, msg)))
  {
    var a := w1.members[id];
    assert MemberOK(w1, id, a);
    ReadLast(s1, a.log);
    w' := w1;
    if Granted(s1, from, msg) && s1.votedFor.None? {
      w' := Grant(w1, id, from);
      GrantMove(strict, w1, id, from);
    }
  }

  // ---------------------------------------------------------------- votes

  lemma VoteRespStep(strict: bool, m: Machine, group: seq<Id>, w: World, id: Id, h: Host, from: Id, msg: Msg)
    returns (w': World)
    requires Here(strict, m, group, w, id, h)
    requires msg.VoteResp? && from in w.members && from != id && MsgOK(strict, m, w, from, id, msg)
    ensures Answers(strict, m, group, w, w', id, h, Handle(h.node, from, msg))
  {
    hide Inv, CommitInv, Grows, Save, TryWin, Replicate;
    var s := h.node;
    if msg.epoch > s.epoch {
      w' := LowerStep(strict, m, group, w, id, h, msg.epoch);
    } else if msg.epoch != s.epoch || !msg.granted || !s.role.Candidate? {
      NoWinQuiet(s, from, msg);
      w' := w;
      NothingStep(strict, m, group, w, id, h);
    } else {
      w' := CountStep(strict, m, group, w, id, h, from);
    }
  }

  /** Stepping down, or up to a higher epoch, and nothing else. */
  lemma LowerStep(strict: bool, m: Machine, group: seq<Id>, w: World, id: Id, h: Host, e: nat) returns (w': World)
    requires Here(strict, m, group, w, id, h)
    ensures Answers(strict, m, group, w, w', id, h, BecomeFollower(h.node, e))
  {
    hide Inv, CommitInv, Grows, Save, TryWin, Replicate;
    w' := Lower(w, id, e);
    LowerMove(strict, w, id, h.node, e);
    QuietTurn(strict, m, group, w, w', id, h, BecomeFollower(h.node, e));
  }

  lemma NothingStep(strict: bool, m: Machine, group: seq<Id>, w: World, id: Id, h: Host)
    requires Here(strict, m, group, w, id, h)
    ensures Answers(strict, m, group, w, w, id, h, Outcome(h.node, []))
  {
    hide Inv, CommitInv, Grows, Save;
    MovedNot(strict, w, id);
    QuietTurn(strict, m, group, w, w, id, h, Outcome(h.node, []));
  }

  lemma CountStep(strict: bool, m: Machine, group: seq<Id>, w: World, id: Id, h: Host, from: Id) returns (w': World)
    requires Here(strict, m, group, w, id, h)
    requires h.node.role.Candidate? && from in w.members && MsgOK(strict, m, w, from, id, VoteResp(h.node.epoch, true))
    ensures Answers(strict, m, group, w, w', id, h, TryWin(CountedVote(h.node, from)))
  {
    hide Inv, CommitInv, Grows, Save, TryWin, Replicate;
    w' := CountedMove(strict, m, group, w, id, h.node, from);
    TryWinDiscipline(CountedVote(h.node, from));
    QuietTurn(strict, m, group, w, w', id, h, TryWin(CountedVote(h.node, from)));
  }

  lemma NoWinQuiet(s: Node, from: Id, msg: Msg)
    requires WellFormed(s) && msg.VoteResp? && msg.epoch <= s.epoch
    requires (msg.epoch != s.epoch || !msg.granted || !s.role.Candidate?)
    ensures HandleVoteResp(s, from, msg) == Outcome(s, [])
  {
    if !s.role.Candidate? {
      NoWin(s);
    }
  }

  lemma CountedMove(strict: bool, m: Machine, group: seq<Id>, w: World, id: Id, s: Node, from: Id) returns (w': World)
    requires Ready(strict, w, id) && GroupOK(group, w) && Mirrors(s, w.members[id])
    requires VoteBacked(w.h, id, w.members[id])
    requires s.me == id && s.group == Sort(group) && WellFormed(s) && s.role.Candidate? && (!strict ==> s.baseSeq == 0)
    requires from in w.members && MsgOK(strict, m, w, from, id, VoteResp(s.epoch, true))
    ensures Moved(strict, w, w', id) && w'.members[id].log == w.members[id].log
    ensures Mirrors(TryWin(CountedVote(s, from)).node, w'.members[id]) && VoteBacked(w'.h, id, w'.members[id])
    ensures SendsOK(strict, m, w', id, TryWin(CountedVote(s, from)).actions)
    ensures RowsOK(w'.h, TryWin(CountedVote(s, from)).node, w'.members[id].log)
    ensures Settled(TryWin(CountedVote(s, from)).node)
  {
    hide Inv, CommitInv, Grows, TryWin, Replicate, Mirrors, RowsOK, Settled, SendsOK;
    var w1 := CountMove(strict, m, w, id, s, from);
    w' := TryWinMove(strict, m, group, w1, CountedVote(s, from));
    MovedTwice(strict, w, w1, w', id);
  }

  function CountedVote(s: Node, from: Id): Node
    requires s.role.Candidate?
  {
    if from !in s.role.votes then s.(role := Candidate(s.role.votes + [from])) else s
  }

  lemma CountMove(strict: bool, m: Machine, w: World, id: Id, s: Node, from: Id) returns (w1: World)
    requires Ready(strict, w, id) && Mirrors(s, w.members[id]) && VoteBacked(w.h, id, w.members[id])
    requires s.role.Candidate? && from in w.members && MsgOK(strict, m, w, from, id, VoteResp(s.epoch, true))
    ensures Moved(strict, w, w1, id) && w1.h == w.h && w1.members[id].log == w.members[id].log
    ensures Mirrors(CountedVote(s, from), w1.members[id]) && VoteBacked(w1.h, id, w1.members[id])
  {
    assert MemberOK(w, id, w.members[id]);
    w1 := w;
    if from !in s.role.votes {
      CollectKeeps(w, id, from);
      w1 := Collect(w, id, from);
      SameLogMove(strict, w, w1, id);
    }
  }
}
