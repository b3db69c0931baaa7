/**
Answering a snapshot one is already past with the end of one's log is enough to
lose a committed entry, even when every other answer is truthful.

Nodes 1, 2 and 3 pass through thirty-three events.  Node 1 commits its first
entry and keeps two more to itself.  Node 2 leads later, holds another second
entry and has compacted the first.  A rejection that is delivered twice makes it
send node 1 a snapshot node 1 is past; node 1 answers with the end of its own log
and node 2 counts that as two of its entries stored.  Node 1 then wins the next
epoch and commits its own second entry.
*/
module FalseOldAck {
  import opened Options
  import opened Quorum
  import opened Collections
  import opened Cluster
  import opened Turns
  import opened Guards
  import opened ConcreteRun

  function A(): Entry { Entry(1, 2, [2]) }
  function B(): Entry { Entry(1, 3, [3]) }
  function Y(): Entry { Entry(2, 2, [4]) }
  function Z(): Entry { Entry(4, 3, [5]) }
  function W(): Entry { Entry(5, 4, [6]) }

  /** Node 1 in epoch 1 once X is committed. */
  function First(log: seq<Entry>): Node { Leading(1, 1, log, 1, 2, 2, 1, 3, 1, 0) }
  /** Node 2 once it knows X is committed. */
  function Told(): Node { Reaching(Following(2, 1, 1, [X()]), 1) }
  /** Node 2 in epoch 2. */
  function Bidding(): Node { Node(2, Group(), 2, Some(2), [X()], 0, 0, 1, 1, Candidate([2]), None) }
  function Second(log: seq<Entry>): Node { Leading(2, 2, log, 1, 1, 2, 0, 3, 2, 0) }
  /** Node 2 in epoch 3, before and after compaction. */
  function Deposed(): Node { Node(2, Group(), 3, None, [X(), Y()], 0, 0, 1, 1, Follower, None) }
  function Shrunk(): Node { Node(2, Group(), 3, None, [Y()], 1, 1, 1, 1, Follower, None) }
  /** Node 2 in epoch 4. */
  function Again(): Node { Node(2, Group(), 4, Some(2), [Y()], 1, 1, 1, 1, Candidate([2]), None) }
  function Fourth(log: seq<Entry>, done: nat, n1: nat, m1: nat): Node {
    Node(2, Group(), 4, Some(2), log, 1, 1, done, done,
         Leader([Progress(1, n1), Progress(3, 3)], [Progress(1, m1), Progress(3, 0)]), None)
  }
  /** Node 1 following in epoch 4. */
  function Past(): Node { Reaching(Following(1, 4, 2, [X(), A(), B()]), 1) }
  /** Node 1 in epoch 5. */
  function Back(): Node { Node(1, Group(), 5, Some(1), [X(), A(), B()], 0, 0, 1, 1, Candidate([1]), None) }
  function Fifth(log: seq<Entry>, n3: nat): Node { Leading(1, 5, log, 1, 2, 4, 0, 3, n3, 0) }

  // ---------------------------------------------------------------- the turns

  lemma CommitsX()
    ensures var r := HandleAppendResp(L1([X()]), 2, AppendResp(1, 1, true));
            r.node == First([X()]) && Send(2, Append(1, 1, 1, [], 1)) in r.actions
  {
    hide SetTo, RaiseTo, CountReached, Replicate;
    FirstRow(Progress(2, 1), Progress(3, 1), 2);
    FirstRow(Progress(2, 0), Progress(3, 0), 1);
    var s' := L1([X()]).(role := Leader([Progress(2, 2), Progress(3, 1)], [Progress(2, 1), Progress(3, 0)]));
    CountsTwo(s', Progress(2, 1), Progress(3, 0), 1);
    assert ScanCommit(s', 2, 1) == 1;
    assert [X()][1..] == [];
    assert EntriesFrom([X()], 2) == [];
    Hears(L1([X()]), 2, 1, Progress(2, 2), Progress(3, 1), Progress(2, 1), Progress(3, 0), 1);
  }

  lemma HearsOfX()
    ensures HandleAppend(Following(2, 1, 1, [X()]), 1, Append(1, 1, 1, [], 1)).node == Told()
    ensures TruthfulAck(Following(2, 1, 1, [X()]), Append(1, 1, 1, [], 1))
  {
    hide ApplyRange;
    assert Merge(0, Merged([X()], None), []) == Merged([X()], None);
  }

  lemma KeepsToItself()
    ensures Propose(First([X()]), [2]).node == First([X(), A()])
    ensures Propose(First([X(), A()]), [3]).node == First([X(), A(), B()])
  {
    hide CountReached, Replicate, EntriesFrom;
    var s, t := First([X()]), First([X(), A()]);
    assert With(s, [2]) == t && With(t, [3]) == First([X(), A(), B()]);
    CountsTwo(t, Progress(2, 1), Progress(3, 0), 2);
    CountsTwo(With(t, [3]), Progress(2, 1), Progress(3, 0), 2);
    ProposesTo(s, Progress(2, 2), Progress(3, 1), [2], 1);
    ProposesTo(t, Progress(2, 2), Progress(3, 1), [3], 1);
  }

  lemma ProposesY()
    ensures Propose(Second([X()]), [4]).node == Second([X(), Y()])
  {
    hide CountReached, Replicate, EntriesFrom;
    var s := Second([X()]);
    assert With(s, [4]) == Second([X(), Y()]);
    CountsTwo(With(s, [4]), Progress(1, 0), Progress(3, 0), 2);
    ProposesTo(s, Progress(1, 2), Progress(3, 2), [4], 1);
  }

  lemma StepsDown()
    ensures HandleVoteReq(Second([X(), Y()]), 3, VoteReq(3, 0, 0)).node == Deposed()
  {
  }

  lemma Shrinks()
    ensures Compact(Deposed(), 0) == Shrunk()
  {
    assert [X(), Y()][1..] == [Y()];
  }

  /** A candidate that has nothing votes for the candidate of a later epoch. */
  lemma YieldsTo()
    ensures var r := HandleVoteReq(Standing(3, 3, []), 2, VoteReq(4, 2, 2));
            r.node == Granted(3, 4, 2) && Send(2, VoteResp(4, true)) in r.actions
  {
  }

  lemma WinsFourth()
    ensures Others(Group(), 2) == [1, 3] ==>
              var r := HandleVoteResp(Again(), 3, VoteResp(4, true));
              r.node == Fourth([Y()], 1, 3, 0) && Send(1, Append(4, 2, 2, [], 1)) in r.actions
  {
    if Others(Group(), 2) == [1, 3] {
      WinsWith(Again(), 3, 1, 3);
      assert [Y()][1..] == [];
      assert EntriesFrom([Y()], 3) == [];
    }
  }

  /** Node 1 has another second entry and rejects. */
  lemma Rejects()
    ensures var r := HandleAppend(First([X(), A(), B()]), 2, Append(4, 2, 2, [], 1));
            r.node == Past() && Send(2, AppendResp(4, 1, false)) in r.actions
    ensures TruthfulAck(First([X(), A(), B()]), Append(4, 2, 2, [], 1))
  {
  }

  lemma BacksDown()
    ensures HandleAppendResp(Fourth([Y()], 1, 3, 0), 1, AppendResp(4, 1, false)).node == Fourth([Y()], 1, 2, 0)
    ensures var r := HandleAppendResp(Fourth([Y()], 1, 2, 0), 1, AppendResp(4, 1, false));
            r.node == Fourth([Y()], 1, 1, 0) && NeedSnapshot(1) in r.actions
  {
    hide BackUpRow, Replicate, EntriesFrom;
    BacksUp(Progress(1, 3), Progress(3, 3), 1, 1);
    BacksUp(Progress(1, 2), Progress(3, 3), 1, 1);
    IsRefused(Fourth([Y()], 1, 3, 0), 1, 1, Progress(1, 2), Progress(3, 3));
    IsRefused(Fourth([Y()], 1, 2, 0), 1, 1, Progress(1, 1), Progress(3, 3));
  }

  /** The answer that breaks the promise: the end of node 1's log, which node 2 does not hold. */
  lemma AnswersLate(data: DbFile)
    ensures var msg := InstallSnapshot(4, 1, 1, data);
            var r := HandleSnapshot(Past(), 2, msg);
            && r.node == Past() && Send(2, AppendResp(4, 3, true)) in r.actions
            && !HarmlessSnapshot(Past(), Some(Fourth([Y()], 1, 1, 0)), msg)
  {
  }

  lemma CountsIt()
    ensures HandleAppendResp(Fourth([Y()], 1, 1, 0), 1, AppendResp(4, 3, true)).node == Fourth([Y()], 1, 4, 3)
  {
    hide SetTo, RaiseTo, CountReached, Replicate, EntriesFrom;
    FirstRow(Progress(1, 1), Progress(3, 3), 4);
    FirstRow(Progress(1, 0), Progress(3, 0), 3);
    var s' := Fourth([Y()], 1, 4, 3);
    CountsTwo(s', Progress(1, 3), Progress(3, 0), 2);
    assert ScanCommit(s', 3, 1) == 1;
    Hears(Fourth([Y()], 1, 1, 0), 1, 3, Progress(1, 4), Progress(3, 3), Progress(1, 3), Progress(3, 0), 1);
  }

  lemma CommitsY()
    ensures var r := Propose(Fourth([Y()], 1, 4, 3), [5]);
            r.node == Fourth([Y(), Z()], 3, 4, 3) && Apply(Y()) in r.actions
  {
    hide CountReached, Replicate, EntriesFrom, ApplyRange;
    var s := Fourth([Y()], 1, 4, 3);
    var s' := With(s, [5]);
    assert s' == Fourth([Y(), Z()], 1, 4, 3);
    CountsTwo(s', Progress(1, 3), Progress(3, 0), 2);
    CountsTwo(s', Progress(1, 3), Progress(3, 0), 3);
    assert ScanCommit(s', 4, 3) == 3;
    assert ScanCommit(s', 3, 1) == 3;
    ProposesTo(s, Progress(1, 4), Progress(3, 3), [5], 3);
    AppliesEntry(s', 1, 3, 2);
  }

  lemma ProposesW()
    ensures var r := Propose(Fifth([X(), A(), B()], 4), [6]);
            r.node == Fifth([X(), A(), B(), W()], 4) && Send(3, Append(5, 3, 1, [W()], 1)) in r.actions
  {
    hide CountReached, Replicate;
    var s := Fifth([X(), A(), B()], 4);
    var s' := With(s, [6]);
    assert s' == Fifth([X(), A(), B(), W()], 4);
    CountsTwo(s', Progress(2, 0), Progress(3, 0), 2);
    ProposesTo(s, Progress(2, 4), Progress(3, 4), [6], 1);
    ShipsTail();
  }

  lemma ShipsTail()
    ensures EntriesFrom([X(), A(), B(), W()], 4) == [W()]
    ensures EntriesFrom([X(), A(), B(), W()], 1) == [X(), A(), B(), W()]
  {
    assert [X(), A(), B(), W()][1..] == [A(), B(), W()] && [A(), B(), W()][1..] == [B(), W()];
    assert [B(), W()][1..] == [W()] && [W()][1..] == [];
    assert EntriesFrom([W()], 4) == [W()] && EntriesFrom([W()], 1) == [W()];
    assert EntriesFrom([B(), W()], 4) == [W()] && EntriesFrom([B(), W()], 1) == [B(), W()];
    assert EntriesFrom([A(), B(), W()], 4) == [W()] && EntriesFrom([A(), B(), W()], 1) == [A(), B(), W()];
  }

  lemma RejectsW()
    ensures var r := HandleAppend(Granted(3, 5, 1), 1, Append(5, 3, 1, [W()], 1));
            r.node == Following(3, 5, 1, []) && Send(1, AppendResp(5, 0, false)) in r.actions
    ensures TruthfulAck(Granted(3, 5, 1), Append(5, 3, 1, [W()], 1))
  {
  }

  lemma Retries()
    ensures var r := HandleAppendResp(Fifth([X(), A(), B(), W()], 4), 3, AppendResp(5, 0, false));
            && r.node == Fifth([X(), A(), B(), W()], 1)
            && Send(3, Append(5, 0, 0, [X(), A(), B(), W()], 1)) in r.actions
  {
    hide BackUpRow, Replicate;
    BacksUp(Progress(2, 4), Progress(3, 4), 0, 0);
    IsRefused(Fifth([X(), A(), B(), W()], 4), 3, 0, Progress(2, 4), Progress(3, 1));
    ShipsTail();
  }

  lemma MergesAll()
    ensures Merge(0, Merged([], None), [X(), A(), B(), W()]) == Merged([X(), A(), B(), W()], Some(1))
  {
    assert [X(), A(), B(), W()][1..] == [A(), B(), W()] && [A(), B(), W()][1..] == [B(), W()];
    assert [B(), W()][1..] == [W()] && [W()][1..] == [];
    assert MergeOne(0, Merged([], None), X()) == Merged([X()], Some(1));
    assert MergeOne(0, Merged([X()], Some(1)), A()) == Merged([X(), A()], Some(1));
    assert MergeOne(0, Merged([X(), A()], Some(1)), B()) == Merged([X(), A(), B()], Some(1));
    assert MergeOne(0, Merged([X(), A(), B()], Some(1)), W()) == Merged([X(), A(), B(), W()], Some(1));
    assert Merge(0, Merged([X(), A(), B()], Some(1)), [W()]) == Merged([X(), A(), B(), W()], Some(1));
    assert Merge(0, Merged([X(), A()], Some(1)), [B(), W()]) == Merged([X(), A(), B(), W()], Some(1));
    assert Merge(0, Merged([X()], Some(1)), [A(), B(), W()]) == Merged([X(), A(), B(), W()], Some(1));
  }

  lemma AcceptsAll()
    ensures var r := HandleAppend(Following(3, 5, 1, []), 1, Append(5, 0, 0, [X(), A(), B(), W()], 1));
            && r.node == Reaching(Following(3, 5, 1, [X(), A(), B(), W()]), 1)
            && Send(1, AppendResp(5, 4, true)) in r.actions
    ensures TruthfulAck(Following(3, 5, 1, []), Append(5, 0, 0, [X(), A(), B(), W()], 1))
  {
    hide Merge, ApplyRange;
    MergesAll();
  }

  lemma CommitsA()
    ensures var s := Fifth([X(), A(), B(), W()], 1);
            var r := HandleAppendResp(s, 3, AppendResp(5, 4, true));
            WellFormed(r.node) && r.node.me == 1 && Apply(A()) in r.actions
  {
    hide SetTo, RaiseTo, CountReached, Replicate, EntriesFrom, ApplyRange;
    var s := Fifth([X(), A(), B(), W()], 1);
    SecondRow(Progress(2, 4), Progress(3, 1), 5);
    SecondRow(Progress(2, 0), Progress(3, 0), 4);
    var s' := s.(role := Leader([Progress(2, 4), Progress(3, 5)], [Progress(2, 0), Progress(3, 4)]));
    CountsTwo(s', Progress(2, 0), Progress(3, 4), 2);
    CountsTwo(s', Progress(2, 0), Progress(3, 4), 3);
    CountsTwo(s', Progress(2, 0), Progress(3, 4), 4);
    assert ScanCommit(s', 5, 4) == 4;
    assert ScanCommit(s', 4, 1) == 4;
    assert ScanCommit(s', 3, 1) == 4;
    Hears(s, 3, 4, Progress(2, 4), Progress(3, 5), Progress(2, 0), Progress(3, 4), 4);
    AppliesEntry(s', 1, 4, 2);
  }

  // ---------------------------------------------------------------- the run

  /** Node 1 commits X and node 2 knows it. */
  lemma Committed(m: Machine) returns (cs: seq<Cluster>, evs: seq<Event>, c: Cluster)
    ensures |evs| == 7 && Reached(m, cs, evs, c, 22) && At(c, First([X()]), Told(), Idling(3))
  {
    hide Reached, HandleAppend, HandleAppendResp, Replicate, TruthfulAck, Save;
    cs, evs, c := FirstReign(m, 22);
    AcceptsFirst();
    cs, evs, c := Go(m, cs, evs, c, 22, L1([X()]), Granted(2, 1, 1), Idling(3),
        Deliver(Packet(1, 2, Append(1, 0, 0, [X()], 0))), Following(2, 1, 1, [X()]));
    CommitsX();
    cs, evs, c := Go(m, cs, evs, c, 22, L1([X()]), Following(2, 1, 1, [X()]), Idling(3),
        Deliver(Packet(2, 1, AppendResp(1, 1, true))), First([X()]));
    HearsOfX();
    cs, evs, c := Go(m, cs, evs, c, 22, First([X()]), Following(2, 1, 1, [X()]), Idling(3),
        Deliver(Packet(1, 2, Append(1, 1, 1, [], 1))), Told());
  }

  /** Node 1 keeps A and B to itself and node 2 stands in epoch 2. */
  lemma Unsent(m: Machine) returns (cs: seq<Cluster>, evs: seq<Event>, c: Cluster)
    ensures |evs| == 10 && Reached(m, cs, evs, c, 22) && At(c, First([X(), A(), B()]), Bidding(), Idling(3))
    ensures Packet(2, 3, VoteReq(2, 1, 1)) in c.net
  {
    hide Reached, Others, Propose, TickElection, Replicate, Save;
    cs, evs, c := Committed(m);
    KeepsToItself();
    cs, evs, c := Go(m, cs, evs, c, 22, First([X()]), Told(), Idling(3), Client(1, [2]), First([X(), A()]));
    cs, evs, c := Go(m, cs, evs, c, 22, First([X(), A()]), Told(), Idling(3), Client(1, [3]), First([X(), A(), B()]));
    OthersHere();
    Stands(Told(), 1, 3);
    cs, evs, c := Go(m, cs, evs, c, 22, First([X(), A(), B()]), Told(), Idling(3), Timeout(2), Bidding());
  }

  /** Node 2 leads epoch 2 and proposes Y. */
  lemma SecondReign(m: Machine) returns (cs: seq<Cluster>, evs: seq<Event>, c: Cluster)
    ensures |evs| == 13 && Reached(m, cs, evs, c, 22)
    ensures At(c, First([X(), A(), B()]), Second([X(), Y()]), Granted(3, 2, 2))
  {
    hide Reached, Others, HandleVoteReq, HandleVoteResp, Propose, Replicate, Save;
    var one := First([X(), A(), B()]);
    cs, evs, c := Unsent(m);
    VotesFor(Idling(3), 2, 2, 1, 1);
    cs, evs, c := Go(m, cs, evs, c, 22, one, Bidding(), Idling(3), Deliver(Packet(2, 3, VoteReq(2, 1, 1))),
        Granted(3, 2, 2));
    OthersHere();
    WinsWith(Bidding(), 3, 1, 3);
    cs, evs, c := Go(m, cs, evs, c, 22, one, Bidding(), Granted(3, 2, 2), Deliver(Packet(3, 2, VoteResp(2, true))),
        Second([X()]));
    ProposesY();
    cs, evs, c := Go(m, cs, evs, c, 22, one, Second([X()]), Granted(3, 2, 2), Client(2, [4]), Second([X(), Y()]));
  }

  /** Node 3 unseats node 2, which compacts its log. */
  lemma Unseated(m: Machine) returns (cs: seq<Cluster>, evs: seq<Event>, c: Cluster)
    ensures |evs| == 16 && Reached(m, cs, evs, c, 22) && At(c, First([X(), A(), B()]), Shrunk(), Standing(3, 3, []))
  {
    hide Reached, Others, TickElection, HandleVoteReq, Replicate, Save, Compact, ShrinkHost;
    var one := First([X(), A(), B()]);
    cs, evs, c := SecondReign(m);
    OthersHere();
    Stands(Granted(3, 2, 2), 1, 2);
    cs, evs, c := Go(m, cs, evs, c, 22, one, Second([X(), Y()]), Granted(3, 2, 2), Timeout(3), Standing(3, 3, []));
    StepsDown();
    cs, evs, c := Go(m, cs, evs, c, 22, one, Second([X(), Y()]), Standing(3, 3, []),
        Deliver(Packet(3, 2, VoteReq(3, 0, 0))), Deposed());
    Shrinks();
    cs, evs, c := GoShrink(m, cs, evs, c, 22, one, Deposed(), Standing(3, 3, []), 2, Shrunk());
  }

  /** Node 2 leads epoch 4. */
  lemma FourthReign(m: Machine) returns (cs: seq<Cluster>, evs: seq<Event>, c: Cluster)
    ensures |evs| == 19 && Reached(m, cs, evs, c, 22)
    ensures At(c, First([X(), A(), B()]), Fourth([Y()], 1, 3, 0), Granted(3, 4, 2))
    ensures Packet(2, 1, Append(4, 2, 2, [], 1)) in c.net
  {
    hide Reached, Others, TickElection, HandleVoteReq, HandleVoteResp, Replicate, Save;
    var one := First([X(), A(), B()]);
    cs, evs, c := Unseated(m);
    OthersHere();
    Stands(Shrunk(), 1, 3);
    cs, evs, c := Go(m, cs, evs, c, 22, one, Shrunk(), Standing(3, 3, []), Timeout(2), Again());
    YieldsTo();
    cs, evs, c := Go(m, cs, evs, c, 22, one, Again(), Standing(3, 3, []), Deliver(Packet(2, 3, VoteReq(4, 2, 2))),
        Granted(3, 4, 2));
    WinsFourth();
    cs, evs, c := Go(m, cs, evs, c, 22, one, Again(), Granted(3, 4, 2), Deliver(Packet(3, 2, VoteResp(4, true))),
        Fourth([Y()], 1, 3, 0));
  }

  /** Node 1 rejects once; the rejection arrives twice and node 2 sends a snapshot. */
  lemma SnapshotLeaves(m: Machine) returns (cs: seq<Cluster>, evs: seq<Event>, c: Cluster, data: DbFile)
    ensures |evs| == 22 && Reached(m, cs, evs, c, 22) && At(c, Past(), Fourth([Y()], 1, 1, 0), Granted(3, 4, 2))
    ensures Packet(2, 1, InstallSnapshot(4, 1, 1, data)) in c.net
  {
    hide Reached, HandleAppend, HandleAppendResp, Replicate, TruthfulAck, Save;
    cs, evs, c := FourthReign(m);
    Rejects();
    cs, evs, c := Go(m, cs, evs, c, 22, First([X(), A(), B()]), Fourth([Y()], 1, 3, 0), Granted(3, 4, 2),
        Deliver(Packet(2, 1, Append(4, 2, 2, [], 1))), Past());
    BacksDown();
    var no := Deliver(Packet(1, 2, AppendResp(4, 1, false)));
    cs, evs, c := Go(m, cs, evs, c, 22, Past(), Fourth([Y()], 1, 3, 0), Granted(3, 4, 2), no, Fourth([Y()], 1, 2, 0));
    cs, evs, c := Go(m, cs, evs, c, 22, Past(), Fourth([Y()], 1, 2, 0), Granted(3, 4, 2), no, Fourth([Y()], 1, 1, 0));
    assert SnapshotFor(c, Fourth([Y()], 1, 1, 0), 1);
    data :| Packet(2, 1, InstallSnapshot(4, 1, 1, data)) in c.net;
  }

  /** Node 1 answers with the end of its log, and node 2 commits Y and Z on the strength of it. */
  lemma FalseCommit(m: Machine) returns (cs: seq<Cluster>, evs: seq<Event>, c: Cluster)
    ensures |evs| == 25 && Reached(m, cs, evs, c, 22) && At(c, Past(), Fourth([Y(), Z()], 3, 4, 3), Granted(3, 4, 2))
    ensures Application(2, Y()) in c.applied && AnswersOld(cs, evs)
  {
    hide Reached, HandleSnapshot, HandleAppendResp, Propose, Replicate, HarmlessSnapshot, Save;
    var data;
    cs, evs, c, data := SnapshotLeaves(m);
    ReachedLast(m, cs, evs, c, 22);
    AnswersLate(data);
    cs, evs, c := Go(m, cs, evs, c, 22, Past(), Fourth([Y()], 1, 1, 0), Granted(3, 4, 2),
        Deliver(Packet(2, 1, InstallSnapshot(4, 1, 1, data))), Past());
    CountsIt();
    cs, evs, c := Go(m, cs, evs, c, 22, Past(), Fourth([Y()], 1, 1, 0), Granted(3, 4, 2),
        Deliver(Packet(1, 2, AppendResp(4, 3, true))), Fourth([Y()], 1, 4, 3));
    CommitsY();
    cs, evs, c := Go(m, cs, evs, c, 22, Past(), Fourth([Y()], 1, 4, 3), Granted(3, 4, 2), Client(2, [5]),
        Fourth([Y(), Z()], 3, 4, 3));
  }

  /** Event 22 delivers a snapshot to a node that is already past it. */
  ghost predicate AnswersOld(cs: seq<Cluster>, evs: seq<Event>) {
    && |cs| > 22 && |evs| > 22 && evs[22].Deliver? && evs[22].packet.msg.InstallSnapshot?
    && evs[22].packet.dst in cs[22].hosts && evs[22].packet.msg.lastSeq <= cs[22].hosts[evs[22].packet.dst].node.applied
  }

  /** Node 1 leads epoch 5. */
  lemma FifthReign(m: Machine) returns (cs: seq<Cluster>, evs: seq<Event>, c: Cluster)
    ensures |evs| == 28 && Reached(m, cs, evs, c, 22)
    ensures At(c, Fifth([X(), A(), B()], 4), Fourth([Y(), Z()], 3, 4, 3), Granted(3, 5, 1))
    ensures Application(2, Y()) in c.applied && AnswersOld(cs, evs)
  {
    hide Reached, Others, TickElection, HandleVoteReq, HandleVoteResp, Replicate, ReplicateOne, Save;
    var two := Fourth([Y(), Z()], 3, 4, 3);
    cs, evs, c := FalseCommit(m);
    OthersHere();
    Stands(Past(), 2, 3);
    cs, evs, c := Go(m, cs, evs, c, 22, Past(), two, Granted(3, 4, 2), Timeout(1), Back());
    VotesFor(Granted(3, 4, 2), 1, 5, 1, 3);
    cs, evs, c := Go(m, cs, evs, c, 22, Back(), two, Granted(3, 4, 2), Deliver(Packet(1, 3, VoteReq(5, 1, 3))),
        Granted(3, 5, 1));
    WinsWith(Back(), 3, 2, 3);
    cs, evs, c := Go(m, cs, evs, c, 22, Back(), two, Granted(3, 5, 1), Deliver(Packet(3, 1, VoteResp(5, true))),
        Fifth([X(), A(), B()], 4));
  }

  /** Node 1 proposes W, is refused and tries again with everything. */
  lemma Repair(m: Machine) returns (cs: seq<Cluster>, evs: seq<Event>, c: Cluster)
    ensures |evs| == 31 && Reached(m, cs, evs, c, 22)
    ensures At(c, Fifth([X(), A(), B(), W()], 1), Fourth([Y(), Z()], 3, 4, 3), Following(3, 5, 1, []))
    ensures Application(2, Y()) in c.applied && AnswersOld(cs, evs)
    ensures Packet(1, 3, Append(5, 0, 0, [X(), A(), B(), W()], 1)) in c.net
  {
    hide Reached, Propose, HandleAppend, HandleAppendResp, Replicate, TruthfulAck, Save;
    var two := Fourth([Y(), Z()], 3, 4, 3);
    cs, evs, c := FifthReign(m);
    ProposesW();
    cs, evs, c := Go(m, cs, evs, c, 22, Fifth([X(), A(), B()], 4), two, Granted(3, 5, 1), Client(1, [6]),
        Fifth([X(), A(), B(), W()], 4));
    RejectsW();
    cs, evs, c := Go(m, cs, evs, c, 22, Fifth([X(), A(), B(), W()], 4), two, Granted(3, 5, 1),
        Deliver(Packet(1, 3, Append(5, 3, 1, [W()], 1))), Following(3, 5, 1, []));
    Retries();
    cs, evs, c := Go(m, cs, evs, c, 22, Fifth([X(), A(), B(), W()], 4), two, Following(3, 5, 1, []),
        Deliver(Packet(3, 1, AppendResp(5, 0, false))), Fifth([X(), A(), B(), W()], 1));
  }

  /**
  As written, answering an old snapshot lets two nodes apply different entries at
  one sequence number; every other event of the run is guarded.
  */
  lemma OldAckBreaksSafety(m: Machine) returns (cs: seq<Cluster>, evs: seq<Event>, a: Application, b: Application)
    ensures IsRun(m, [1, 2, 3], cs, evs) && |evs| == 33 && AnswersOld(cs, evs)
    ensures forall i {:trigger evs[i]} :: 0 <= i < |evs| ==> Enabled(cs[i], evs[i]) && (Guarded(cs[i], evs[i]) <==> i != 22)
    ensures a in cs[|evs|].applied && b in cs[|evs|].applied
    ensures a.entry.seqno == b.entry.seqno && a.entry.cmd != b.entry.cmd
  {
    hide IsRun, Reached, HandleAppend, HandleAppendResp, Replicate, TruthfulAck, Save;
    var two := Fourth([Y(), Z()], 3, 4, 3);
    var c;
    cs, evs, c := Repair(m);
    AcceptsAll();
    var three := Reaching(Following(3, 5, 1, [X(), A(), B(), W()]), 1);
    cs, evs, c := Go(m, cs, evs, c, 22, Fifth([X(), A(), B(), W()], 1), two, Following(3, 5, 1, []),
        Deliver(Packet(1, 3, Append(5, 0, 0, [X(), A(), B(), W()], 1))), three);
    CommitsA();
    var ack := Deliver(Packet(3, 1, AppendResp(5, 4, true)));
    cs, evs, c := Go(m, cs, evs, c, 22, Fifth([X(), A(), B(), W()], 1), two, three, ack,
        Turn(Fifth([X(), A(), B(), W()], 1), ack).node);
    ReachedLast(m, cs, evs, c, 22);
    a, b := Application(2, Y()), Application(1, A());
  }
}
