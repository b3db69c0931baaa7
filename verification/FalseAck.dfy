/**
The code as written can apply different commands at one sequence number.

Nodes 1, 2 and 3 pass through eighteen events.  Node 1 keeps an uncommitted
entry of epoch 1, acknowledges it to the leader of epoch 2 in answer to an
empty heartbeat, and that leader then commits its own first entry on the
strength of it.  Node 1 later wins epoch 3 without that entry and commits over it.
*/
module FalseAck {
  import opened Options
  import opened Quorum
  import opened Collections
  import opened Cluster
  import opened Turns
  import opened Guards
  import opened ConcreteRun

  function Y(): Entry { Entry(2, 1, [2]) }
  function Z(): Entry { Entry(3, 2, [3]) }

  function L2(): Node { Leading(2, 2, [], 0, 1, 1, 0, 3, 1, 0) }
  function L2After(): Node { Leading(2, 2, [Y()], 1, 1, 2, 1, 3, 1, 0) }
  function L3(log: seq<Entry>, nq: nat): Node { Leading(1, 3, log, 0, 2, 2, 0, 3, nq, 0) }

  // ---------------------------------------------------------------- the turns

  /** The empty heartbeat of epoch 2 is acknowledged up to the entry of epoch 1. */
  lemma FalselyAcknowledges()
    ensures var s := Leading(1, 1, [X()], 0, 2, 1, 0, 3, 1, 0);
            var msg := Append(2, 0, 0, [], 0);
            var r := HandleAppend(s, 2, msg);
            && r.node == Following(1, 2, 2, [X()]) && Send(2, AppendResp(2, 1, true)) in r.actions
            && !TruthfulAck(s, msg)
  {
  }

  lemma HearsFalseAck()
    ensures HandleAppendResp(Leading(2, 2, [], 0, 1, 1, 0, 3, 1, 0), 1, AppendResp(2, 1, true)).node
         == Leading(2, 2, [], 0, 1, 2, 1, 3, 1, 0)
  {
    FirstRow(Progress(1, 1), Progress(3, 1), 2);
    FirstRow(Progress(1, 0), Progress(3, 0), 1);
  }

  lemma CommitsY()
    ensures var r := Propose(Leading(2, 2, [], 0, 1, 2, 1, 3, 1, 0), [2]);
            r.node == Leading(2, 2, [Y()], 1, 1, 2, 1, 3, 1, 0) && Apply(Y()) in r.actions
  {
    var s := Leading(2, 2, [], 0, 1, 2, 1, 3, 1, 0);
    var s' := s.(log := [] + [Y()]);
    assert s'.log == [Y()];
    CountsTwo(s', Progress(1, 1), Progress(3, 0), 1);
    assert EntryAt(s', 1) == Some(Y());
    assert ScanCommit(s', 2, 1) == 1;
    assert ScanCommit(s', 1, 0) == 1;
    var s'' := s'.(commit := 1);
    assert EntryAt(s'', 1) == Some(Y());
    assert ApplyRange(s'', 1, 1) == [];
    assert ApplyRange(s'', 0, 1) == [Apply(Y())];
    assert Apply(Y()) in AdvanceCommit(s').actions;
  }

  lemma Rejects()
    ensures var r := HandleAppend(Granted(3, 3, 1), 1, Append(3, 1, 1, [Z()], 0));
            r.node == Following(3, 3, 1, []) && Send(1, AppendResp(3, 0, false)) in r.actions
  {
  }

  lemma Retries()
    ensures var s := Leading(1, 3, [X(), Z()], 0, 2, 2, 0, 3, 2, 0);
            var r := HandleAppendResp(s, 3, AppendResp(3, 0, false));
            && r.node == Leading(1, 3, [X(), Z()], 0, 2, 2, 0, 3, 1, 0)
            && Send(3, Append(3, 0, 0, [X(), Z()], 0)) in r.actions
  {
    var s' := Leading(1, 3, [X(), Z()], 0, 2, 2, 0, 3, 1, 0);
    assert [Progress(2, 2), Progress(3, 2)][1..] == [Progress(3, 2)];
    assert BackUpRow([Progress(3, 2)], 3, 0, 0) == [Progress(3, 1)];
    assert BackUpRow([Progress(2, 2), Progress(3, 2)], 3, 0, 0) == [Progress(2, 2), Progress(3, 1)];
    ReplicatesTwo(s', Progress(2, 2), Progress(3, 1));
    assert [X(), Z()][1..] == [Z()] && [Z()][1..] == [];
    assert EntriesFrom([Z()], 1) == [Z()];
    assert EntriesFrom([X(), Z()], 1) == [X(), Z()];
    assert ReplicateOne(s', Progress(3, 1)) == Send(3, Append(3, 0, 0, [X(), Z()], 0));
  }

  lemma Accepts()
    ensures var r := HandleAppend(Following(3, 3, 1, []), 1, Append(3, 0, 0, [X(), Z()], 0));
            r.node == Following(3, 3, 1, [X(), Z()]) && Send(1, AppendResp(3, 2, true)) in r.actions
  {
    var acc := Merged([], None);
    assert MergeOne(0, acc, X()) == Merged([X()], Some(1));
    assert MergeOne(0, Merged([X()], Some(1)), Z()) == Merged([X(), Z()], Some(1));
    assert [X(), Z()][1..] == [Z()] && [Z()][1..] == [];
    assert Merge(0, Merged([X(), Z()], Some(1)), []) == Merged([X(), Z()], Some(1));
    assert Merge(0, Merged([X()], Some(1)), [Z()]) == Merged([X(), Z()], Some(1));
    assert Merge(0, acc, [X(), Z()]) == Merged([X(), Z()], Some(1));
  }

  lemma CommitsX()
    ensures var s := Leading(1, 3, [X(), Z()], 0, 2, 2, 0, 3, 1, 0);
            var r := HandleAppendResp(s, 3, AppendResp(3, 2, true));
            WellFormed(r.node) && r.node.me == 1 && Apply(X()) in r.actions
  {
    hide SetTo, RaiseTo, CountReached, Replicate;
    var s' := Leading(1, 3, [X(), Z()], 0, 2, 2, 0, 3, 3, 2);
    SecondRow(Progress(2, 2), Progress(3, 1), 3);
    SecondRow(Progress(2, 0), Progress(3, 0), 2);
    CountsTwo(s', Progress(2, 0), Progress(3, 2), 1);
    CountsTwo(s', Progress(2, 0), Progress(3, 2), 2);
    assert ScanCommit(s', 3, 2) == 2;
    assert ScanCommit(s', 2, 0) == 2;
    assert ScanCommit(s', 1, 0) == 2;
    var s'' := s'.(commit := 2);
    assert ApplyRange(s'', 0, 2)[0] == Apply(X());
    assert Apply(X()) in AdvanceCommit(s').actions;
  }

  // ---------------------------------------------------------------- the run

  /** Node 2 stands in epoch 2 and node 3 votes for it. */
  lemma SecondVote(m: Machine) returns (cs: seq<Cluster>, evs: seq<Event>, c: Cluster)
    ensures |evs| == 6 && Reached(m, cs, evs, c, 7) && At(c, L1([X()]), Standing(2, 2, []), Granted(3, 2, 2))
    ensures Packet(3, 2, VoteResp(2, true)) in c.net
  {
    hide Reached, Others, TickElection, HandleVoteReq, L1;
    cs, evs, c := FirstReign(m, 7);
    OthersHere();
    Stands(Granted(2, 1, 1), 1, 3);
    cs, evs, c := Go(m, cs, evs, c, 7, L1([X()]), Granted(2, 1, 1), Idling(3), Timeout(2), Standing(2, 2, []));
    VotesFor(Idling(3), 2, 2, 0, 0);
    cs, evs, c := Go(m, cs, evs, c, 7, L1([X()]), Standing(2, 2, []), Idling(3),
        Deliver(Packet(2, 3, VoteReq(2, 0, 0))), Granted(3, 2, 2));
  }

  /** Node 2 leads epoch 2. */
  lemma SecondReign(m: Machine) returns (cs: seq<Cluster>, evs: seq<Event>, c: Cluster)
    ensures |evs| == 7 && Reached(m, cs, evs, c, 7) && At(c, L1([X()]), L2(), Granted(3, 2, 2))
    ensures Packet(2, 1, Append(2, 0, 0, [], 0)) in c.net
  {
    hide Reached, Others, HandleVoteResp, Replicate;
    cs, evs, c := SecondVote(m);
    OthersHere();
    WinsWith(Standing(2, 2, []), 3, 1, 3);
    cs, evs, c := Go(m, cs, evs, c, 7, L1([X()]), Standing(2, 2, []), Granted(3, 2, 2),
        Deliver(Packet(3, 2, VoteResp(2, true))), L2());
  }

  /** Node 1 acknowledges X, and node 2 commits Y on the strength of it. */
  lemma FalseCommit(m: Machine) returns (cs: seq<Cluster>, evs: seq<Event>, c: Cluster)
    ensures |evs| == 10 && evs[7].Deliver? && evs[7].packet.msg.Append? && Reached(m, cs, evs, c, 7)
    ensures At(c, Following(1, 2, 2, [X()]), L2After(), Granted(3, 2, 2))
    ensures Application(2, Y()) in c.applied
  {
    hide Reached, HandleAppend, HandleAppendResp, Propose, TruthfulAck;
    cs, evs, c := SecondReign(m);
    FalselyAcknowledges();
    var heartbeat := Deliver(Packet(2, 1, Append(2, 0, 0, [], 0)));
    assert !Guarded(c, heartbeat);
    cs, evs, c := Go(m, cs, evs, c, 7, L1([X()]), L2(), Granted(3, 2, 2), heartbeat, Following(1, 2, 2, [X()]));
    HearsFalseAck();
    cs, evs, c := Go(m, cs, evs, c, 7, Following(1, 2, 2, [X()]), L2(), Granted(3, 2, 2),
        Deliver(Packet(1, 2, AppendResp(2, 1, true))), Leading(2, 2, [], 0, 1, 2, 1, 3, 1, 0));
    CommitsY();
    cs, evs, c := Go(m, cs, evs, c, 7, Following(1, 2, 2, [X()]), Leading(2, 2, [], 0, 1, 2, 1, 3, 1, 0),
        Granted(3, 2, 2), Client(2, [2]), L2After());
  }

  /** Node 1 stands in epoch 3 and node 3, which has nothing, votes for it. */
  lemma ThirdVote(m: Machine) returns (cs: seq<Cluster>, evs: seq<Event>, c: Cluster)
    ensures |evs| == 12 && evs[7].Deliver? && evs[7].packet.msg.Append? && Reached(m, cs, evs, c, 7)
    ensures At(c, Standing(1, 3, [X()]), L2After(), Granted(3, 3, 1))
    ensures Application(2, Y()) in c.applied && Packet(3, 1, VoteResp(3, true)) in c.net
  {
    hide Reached, Others, TickElection, HandleVoteReq, L2After;
    cs, evs, c := FalseCommit(m);
    OthersHere();
    Stands(Following(1, 2, 2, [X()]), 2, 3);
    cs, evs, c := Go(m, cs, evs, c, 7, Following(1, 2, 2, [X()]), L2After(), Granted(3, 2, 2), Timeout(1),
        Standing(1, 3, [X()]));
    VotesFor(Granted(3, 2, 2), 1, 3, 1, 1);
    cs, evs, c := Go(m, cs, evs, c, 7, Standing(1, 3, [X()]), L2After(), Granted(3, 2, 2),
        Deliver(Packet(1, 3, VoteReq(3, 1, 1))), Granted(3, 3, 1));
  }

  /** Node 1 leads epoch 3. */
  lemma ThirdReign(m: Machine) returns (cs: seq<Cluster>, evs: seq<Event>, c: Cluster)
    ensures |evs| == 13 && evs[7].Deliver? && evs[7].packet.msg.Append? && Reached(m, cs, evs, c, 7)
    ensures At(c, L3([X()], 2), L2After(), Granted(3, 3, 1))
    ensures Application(2, Y()) in c.applied
  {
    hide Reached, Others, HandleVoteResp, Replicate, ReplicateOne;
    cs, evs, c := ThirdVote(m);
    OthersHere();
    WinsWith(Standing(1, 3, [X()]), 3, 2, 3);
    cs, evs, c := Go(m, cs, evs, c, 7, Standing(1, 3, [X()]), L2After(), Granted(3, 3, 1),
        Deliver(Packet(3, 1, VoteResp(3, true))), L3([X()], 2));
  }

  /** Node 1 proposes Z and finds that node 3 is behind. */
  lemma Refusal(m: Machine) returns (cs: seq<Cluster>, evs: seq<Event>, c: Cluster)
    ensures |evs| == 15 && evs[7].Deliver? && evs[7].packet.msg.Append? && Reached(m, cs, evs, c, 7)
    ensures At(c, L3([X(), Z()], 2), L2After(), Following(3, 3, 1, []))
    ensures Application(2, Y()) in c.applied && Packet(3, 1, AppendResp(3, 0, false)) in c.net
  {
    hide Reached, HandleAppend, Propose, Replicate, ReplicateOne, Save, SnapshotFor, L2After, EntriesFrom;
    cs, evs, c := ThirdReign(m);
    Proposes(1, 3, [X()], 2, 2, 3, 2, [3]);
    TailIsZ();
    cs, evs, c := Go(m, cs, evs, c, 7, L3([X()], 2), L2After(), Granted(3, 3, 1), Client(1, [3]), L3([X(), Z()], 2));
    Rejects();
    cs, evs, c := Go(m, cs, evs, c, 7, L3([X(), Z()], 2), L2After(), Granted(3, 3, 1),
        Deliver(Packet(1, 3, Append(3, 1, 1, [Z()], 0))), Following(3, 3, 1, []));
  }

  lemma TailIsZ()
    ensures [X()] + [Z()] == [X(), Z()]
    ensures ReplicateOne(L3([X(), Z()], 2), Progress(3, 2)) == Send(3, Append(3, 1, 1, [Z()], 0))
  {
    assert [X(), Z()][1..] == [Z()] && [Z()][1..] == [];
    assert EntriesFrom([Z()], 2) == [Z()];
    assert EntriesFrom([X(), Z()], 2) == [Z()];
  }

  /** As written, two nodes can apply different entries at one sequence number. */
  lemma StateMachineSafetyFails(m: Machine) returns (cs: seq<Cluster>, evs: seq<Event>, a: Application, b: Application)
    ensures IsRun(m, [1, 2, 3], cs, evs) && |evs| == 18 && evs[7].Deliver? && evs[7].packet.msg.Append?
    ensures forall i {:trigger evs[i]} :: 0 <= i < |evs| ==> Enabled(cs[i], evs[i]) && (Guarded(cs[i], evs[i]) <==> i != 7)
    ensures a in cs[|evs|].applied && b in cs[|evs|].applied
    ensures a.entry.seqno == b.entry.seqno && a.entry.cmd != b.entry.cmd
  {
    hide IsRun, Reached, HandleAppend, HandleAppendResp;
    var c;
    cs, evs, c := Refusal(m);
    Retries();
    cs, evs, c := Go(m, cs, evs, c, 7, L3([X(), Z()], 2), L2After(), Following(3, 3, 1, []),
        Deliver(Packet(3, 1, AppendResp(3, 0, false))), L3([X(), Z()], 1));
    Accepts();
    cs, evs, c := Go(m, cs, evs, c, 7, L3([X(), Z()], 1), L2After(), Following(3, 3, 1, []),
        Deliver(Packet(1, 3, Append(3, 0, 0, [X(), Z()], 0))), Following(3, 3, 1, [X(), Z()]));
    CommitsX();
    var ack := Deliver(Packet(3, 1, AppendResp(3, 2, true)));
    cs, evs, c := Go(m, cs, evs, c, 7, L3([X(), Z()], 1), L2After(), Following(3, 3, 1, [X(), Z()]), ack,
        Turn(L3([X(), Z()], 1), ack).node);
    ReachedLast(m, cs, evs, c, 7);
    a, b := Application(1, X()), Application(2, Y());
  }
}
