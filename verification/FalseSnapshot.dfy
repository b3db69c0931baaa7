/**
A late snapshot can erase acknowledged entries, even when every acknowledgement
is truthful.

Nodes 1, 2 and 3 pass through eighteen events.  Node 1 commits its second entry
with the help of node 3, to which it sent a snapshot of the first entry a moment
before.  The snapshot arrives late and empties node 3's log, so node 2 can win
the next epoch and commit another command at sequence number two.
*/
module FalseSnapshot {
  import opened Options
  import opened Quorum
  import opened Collections
  import opened Cluster
  import opened Turns
  import opened Guards
  import opened ConcreteRun

  function W(): Entry { Entry(2, 2, [3]) }

  /** Node 1 once X is committed. */
  function Half(): Node { Leading(1, 1, [X(), V()], 1, 2, 2, 1, 3, 1, 0) }
  function Compacted(): Node { Half().(log := [V()], baseSeq := 1, baseEpoch := 1) }
  /** Node 1 once V is committed. */
  function Whole(): Node {
    Compacted().(commit := 2, applied := 2,
                 role := Leader([Progress(2, 2), Progress(3, 3)], [Progress(2, 1), Progress(3, 2)]))
  }
  /** Node 3 after the snapshot. */
  function Emptied(): Node { Node(3, Group(), 1, Some(1), [], 1, 1, 1, 1, Follower, Some(1)) }
  function Misled(): Node { Emptied().(epoch := 2, votedFor := Some(2), leader := None) }
  function L2(log: seq<Entry>): Node { Leading(2, 2, log, 0, 1, 2, 0, 3, 2, 0) }

  // ---------------------------------------------------------------- the turns

  lemma ScansFirst()
    ensures ScanCommit(Leading(1, 1, [X(), V()], 0, 2, 2, 1, 3, 1, 0), 1, 0) == 1
  {
    hide CountReached;
    var s := Leading(1, 1, [X(), V()], 0, 2, 2, 1, 3, 1, 0);
    CountsTwo(s, Progress(2, 1), Progress(3, 0), 1);
    CountsTwo(s, Progress(2, 1), Progress(3, 0), 2);
    assert ScanCommit(s, 2, 1) == 1;
  }

  lemma CommitsFirst()
    ensures HandleAppendResp(L1([X(), V()]), 2, AppendResp(1, 1, true)).node == Half()
  {
    hide SetTo, RaiseTo, CountReached, Replicate, ApplyRange, ScanCommit, EntriesFrom;
    FirstRow(Progress(2, 1), Progress(3, 1), 2);
    FirstRow(Progress(2, 0), Progress(3, 0), 1);
    ScansFirst();
  }

  lemma Compacts()
    ensures Compact(Half(), 0) == Compacted()
  {
    assert [X(), V()][1..] == [V()];
  }

  lemma NeedsSnapshot()
    ensures WellFormed(Compacted()) && NeedSnapshot(3) in Heartbeat(Compacted()).actions
    ensures SnapshotSeq(Compacted()) == 1 && SnapshotEpoch(Compacted()) == 1
  {
    ReplicatesTwo(Compacted(), Progress(2, 2), Progress(3, 1));
  }

  lemma CommitsSecond()
    ensures var r := HandleAppendResp(Compacted(), 3, AppendResp(1, 2, true));
            r.node == Whole() && Apply(V()) in r.actions
  {
    hide SetTo, RaiseTo, CountReached, Replicate;
    var s' := Compacted().(role := Leader([Progress(2, 2), Progress(3, 3)], [Progress(2, 1), Progress(3, 2)]));
    SecondRow(Progress(2, 2), Progress(3, 1), 3);
    SecondRow(Progress(2, 1), Progress(3, 0), 2);
    CountsTwo(s', Progress(2, 1), Progress(3, 2), 2);
    assert EntryAt(s', 2) == Some(V());
    assert ScanCommit(s', 3, 2) == 2;
    assert ScanCommit(s', 2, 1) == 2;
    var s'' := s'.(commit := 2);
    assert EntryAt(s'', 2) == Some(V());
    assert ApplyRange(s'', 2, 2) == [];
    assert ApplyRange(s'', 1, 2) == [Apply(V())];
    assert Apply(V()) in AdvanceCommit(s').actions;
  }

  lemma Forgets(data: DbFile, sender: Option<Node>)
    ensures var s, msg := Following(3, 1, 1, [X(), V()]), InstallSnapshot(1, 1, 1, data);
            HandleSnapshot(s, 1, msg).node == Emptied() && !HarmlessSnapshot(s, sender, msg)
  {
  }

  lemma VotesAgain()
    ensures var r := HandleVoteReq(Emptied(), 2, VoteReq(2, 1, 1));
            r.node == Misled() && Send(2, VoteResp(2, true)) in r.actions
  {
  }

  lemma ShipsW()
    ensures [X()] + [W()] == [X(), W()]
    ensures ReplicateOne(L2([X(), W()]), Progress(3, 2)) == Send(3, Append(2, 1, 1, [W()], 0))
  {
    assert [X(), W()][1..] == [W()] && [W()][1..] == [];
    assert EntriesFrom([W()], 2) == [W()];
    assert EntriesFrom([X(), W()], 2) == [W()];
  }

  lemma AcceptsW()
    ensures var r := HandleAppend(Misled(), 2, Append(2, 1, 1, [W()], 0));
            && r.node == Misled().(log := [W()], leader := Some(2)) && Send(2, AppendResp(2, 2, true)) in r.actions
    ensures TruthfulAck(Misled(), Append(2, 1, 1, [W()], 0))
  {
    var acc := Merged([], None);
    assert MergeOne(1, acc, W()) == Merged([W()], Some(2));
    assert [W()][1..] == [];
    assert Merge(1, Merged([W()], Some(2)), []) == Merged([W()], Some(2));
    assert Merge(1, acc, [W()]) == Merged([W()], Some(2));
  }

  lemma CommitsW()
    ensures var r := HandleAppendResp(L2([X(), W()]), 3, AppendResp(2, 2, true));
            WellFormed(r.node) && r.node.me == 2 && Apply(W()) in r.actions
  {
    hide SetTo, RaiseTo, CountReached, Replicate;
    var s' := Leading(2, 2, [X(), W()], 0, 1, 2, 0, 3, 3, 2);
    SecondRow(Progress(1, 2), Progress(3, 2), 3);
    SecondRow(Progress(1, 0), Progress(3, 0), 2);
    CountsTwo(s', Progress(1, 0), Progress(3, 2), 1);
    CountsTwo(s', Progress(1, 0), Progress(3, 2), 2);
    assert ScanCommit(s', 3, 2) == 2;
    assert ScanCommit(s', 2, 0) == 2;
    assert ScanCommit(s', 1, 0) == 2;
    var s'' := s'.(commit := 2);
    AppliesTwo(s'');
    assert Apply(W()) in AdvanceCommit(s').actions;
  }

  lemma AppliesTwo(s: Node)
    requires s.baseSeq == 0 && s.log == [X(), W()]
    ensures ApplyRange(s, 0, 2) == [Apply(X()), Apply(W())]
  {
    assert EntryAt(s, 1) == Some(X()) && EntryAt(s, 2) == Some(W());
    assert ApplyRange(s, 2, 2) == [];
    assert ApplyRange(s, 1, 2) == [Apply(W())];
  }

  // ---------------------------------------------------------------- the run

  /** Node 1 commits X, compacts it away and sends node 3 a snapshot. */
  lemma SnapshotLeaves(m: Machine) returns (cs: seq<Cluster>, evs: seq<Event>, c: Cluster, data: DbFile)
    ensures |evs| == 9 && Reached(m, cs, evs, c, 11) && At(c, Compacted(), Following(2, 1, 1, [X()]), Idling(3))
    ensures Packet(1, 3, InstallSnapshot(1, 1, 1, data)) in c.net
    ensures Packet(1, 3, Append(1, 0, 0, [X(), V()], 0)) in c.net
  {
    hide Reached, HandleAppendResp, Replicate, Heartbeat, Compact, ShrinkHost;
    cs, evs, c := FirstAck(m, 11);
    CommitsFirst();
    cs, evs, c := Go(m, cs, evs, c, 11, L1([X(), V()]), Following(2, 1, 1, [X()]), Idling(3),
        Deliver(Packet(2, 1, AppendResp(1, 1, true))), Half());
    Compacts();
    cs, evs, c := GoShrink(m, cs, evs, c, 11, Half(), Following(2, 1, 1, [X()]), Idling(3), 1, Compacted());
    NeedsSnapshot();
    SameNode(Compacted());
    cs, evs, c := Go(m, cs, evs, c, 11, Compacted(), Following(2, 1, 1, [X()]), Idling(3), Pulse(1), Compacted());
    assert SnapshotFor(c, Compacted(), 3);
    data :| Packet(1, 3, InstallSnapshot(1, 1, 1, data)) in c.net;
  }

  /** Node 3 receives both entries and node 1 commits V; then the snapshot empties node 3. */
  lemma SnapshotLands(m: Machine) returns (cs: seq<Cluster>, evs: seq<Event>, c: Cluster)
    ensures |evs| == 12 && Reached(m, cs, evs, c, 11) && At(c, Whole(), Following(2, 1, 1, [X()]), Emptied())
    ensures Application(1, V()) in c.applied && evs[11].Deliver? && evs[11].packet.msg.InstallSnapshot?
  {
    hide Reached, HandleAppend, HandleAppendResp, HandleSnapshot, TruthfulAck, HarmlessSnapshot;
    var data;
    cs, evs, c, data := SnapshotLeaves(m);
    AcceptsBoth();
    cs, evs, c := Go(m, cs, evs, c, 11, Compacted(), Following(2, 1, 1, [X()]), Idling(3),
        Deliver(Packet(1, 3, Append(1, 0, 0, [X(), V()], 0))), Following(3, 1, 1, [X(), V()]));
    CommitsSecond();
    cs, evs, c := Go(m, cs, evs, c, 11, Compacted(), Following(2, 1, 1, [X()]), Following(3, 1, 1, [X(), V()]),
        Deliver(Packet(3, 1, AppendResp(1, 2, true))), Whole());
    Forgets(data, Sender(c, Packet(1, 3, InstallSnapshot(1, 1, 1, data))));
    cs, evs, c := Go(m, cs, evs, c, 11, Whole(), Following(2, 1, 1, [X()]), Following(3, 1, 1, [X(), V()]),
        Deliver(Packet(1, 3, InstallSnapshot(1, 1, 1, data))), Emptied());
  }

  /** Node 2 stands in epoch 2 and the emptied node 3 votes for it. */
  lemma SecondVote(m: Machine) returns (cs: seq<Cluster>, evs: seq<Event>, c: Cluster)
    ensures |evs| == 14 && Reached(m, cs, evs, c, 11) && At(c, Whole(), Standing(2, 2, [X()]), Misled())
    ensures Application(1, V()) in c.applied && evs[11].Deliver? && evs[11].packet.msg.InstallSnapshot?
    ensures Packet(3, 2, VoteResp(2, true)) in c.net
  {
    hide Reached, Others, TickElection, HandleVoteReq, Whole;
    cs, evs, c := SnapshotLands(m);
    OthersHere();
    Stands(Following(2, 1, 1, [X()]), 1, 3);
    cs, evs, c := Go(m, cs, evs, c, 11, Whole(), Following(2, 1, 1, [X()]), Emptied(), Timeout(2),
        Standing(2, 2, [X()]));
    VotesAgain();
    cs, evs, c := Go(m, cs, evs, c, 11, Whole(), Standing(2, 2, [X()]), Emptied(),
        Deliver(Packet(2, 3, VoteReq(2, 1, 1))), Misled());
  }

  /** Node 2 leads epoch 2. */
  lemma SecondReign(m: Machine) returns (cs: seq<Cluster>, evs: seq<Event>, c: Cluster)
    ensures |evs| == 15 && Reached(m, cs, evs, c, 11) && At(c, Whole(), L2([X()]), Misled())
    ensures Application(1, V()) in c.applied && evs[11].Deliver? && evs[11].packet.msg.InstallSnapshot?
  {
    hide Reached, Others, HandleVoteResp, Replicate, ReplicateOne, Whole;
    cs, evs, c := SecondVote(m);
    OthersHere();
    WinsWith(Standing(2, 2, [X()]), 3, 1, 3);
    cs, evs, c := Go(m, cs, evs, c, 11, Whole(), Standing(2, 2, [X()]), Misled(),
        Deliver(Packet(3, 2, VoteResp(2, true))), L2([X()]));
  }

  /** As written, a late snapshot lets two nodes apply different entries at one sequence number. */
  lemma SnapshotBreaksSafety(m: Machine) returns (cs: seq<Cluster>, evs: seq<Event>, a: Application, b: Application)
    ensures IsRun(m, [1, 2, 3], cs, evs) && |evs| == 18 && evs[11].Deliver? && evs[11].packet.msg.InstallSnapshot?
    ensures forall i {:trigger evs[i]} :: 0 <= i < |evs| ==> Enabled(cs[i], evs[i]) && (Guarded(cs[i], evs[i]) <==> i != 11)
    ensures a in cs[|evs|].applied && b in cs[|evs|].applied
    ensures a.entry.seqno == b.entry.seqno && a.entry.cmd != b.entry.cmd
  {
    hide IsRun, Reached, Propose, HandleAppend, HandleAppendResp, Replicate, ReplicateOne, TruthfulAck;
    var c;
    cs, evs, c := SecondReign(m);
    Proposes(2, 2, [X()], 1, 2, 3, 2, [3]);
    ShipsW();
    cs, evs, c := Go(m, cs, evs, c, 11, Whole(), L2([X()]), Misled(), Client(2, [3]), L2([X(), W()]));
    AcceptsW();
    var d := Misled().(log := [W()], leader := Some(2));
    cs, evs, c := Go(m, cs, evs, c, 11, Whole(), L2([X(), W()]), Misled(),
        Deliver(Packet(2, 3, Append(2, 1, 1, [W()], 0))), d);
    CommitsW();
    var ack := Deliver(Packet(3, 2, AppendResp(2, 2, true)));
    cs, evs, c := Go(m, cs, evs, c, 11, Whole(), L2([X(), W()]), d, ack, Turn(L2([X(), W()]), ack).node);
    ReachedLast(m, cs, evs, c, 11);
    a, b := Application(1, V()), Application(2, W());
  }
}
