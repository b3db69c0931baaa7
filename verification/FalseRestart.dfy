/**
A restart after an installed snapshot can bring a database off the history, even
when every acknowledgement is truthful and no snapshot discards anything.

Nodes 1, 2 and 3 pass through eighteen events.  Node 2 stores the first entry and
then installs a snapshot of the first two.  The stored first entry outlives the
installation, so a restart puts it where the third entry belongs.  The next Append
finds an entry of its own epoch there and leaves it: node 2 executes the first
command a second time and the third never.
*/
module FalseRestart {
  import opened Options
  import opened Quorum
  import opened Collections
  import opened Cluster
  import opened Turns
  import Protocol
  import opened Mirror
  import opened Storage
  import opened Simulation
  import opened SimRest
  import opened SimAppend
  import opened Guards
  import opened Safety
  import opened LogShape
  import opened Durability
  import opened ConcreteRun

  function T(): Entry { Entry(1, 3, [3]) }
  function U(): Entry { Entry(1, 4, [4]) }

  /** Node 1 from the moment X and V are committed. */
  function Boss(log: seq<Entry>, base: nat, baseEpoch: nat, done: nat, n2: nat, m2: nat, n3: nat, m3: nat): Node {
    Node(1, Group(), 1, Some(1), log, base, baseEpoch, done, done,
         Leader([Progress(2, n2), Progress(3, n3)], [Progress(2, m2), Progress(3, m3)]), None)
  }
  /** Node 3 with all four entries. */
  function Full(): Node { Reaching(Following(3, 1, 1, [X(), V(), T(), U()]), 2) }
  /** Node 2 after the snapshot, after the restart and after the next Append. */
  function Installs(): Node { Node(2, Group(), 1, Some(1), [], 2, 1, 2, 2, Follower, Some(1)) }
  function Restarted(): Node { Node(2, Group(), 1, Some(1), [X()], 2, 1, 2, 2, Follower, None) }
  function Shifted(): Node { Node(2, Group(), 1, Some(1), [X(), U()], 2, 1, 4, 4, Follower, Some(1)) }

  // ---------------------------------------------------------------- the turns

  lemma CommitsBoth()
    ensures var r := HandleAppendResp(L1([X(), V()]), 3, AppendResp(1, 2, true));
            && r.node == Boss([X(), V()], 0, 0, 2, 1, 0, 3, 2)
            && Apply(X()) in r.actions && Apply(V()) in r.actions
  {
    hide SetTo, RaiseTo, CountReached, Replicate, EntriesFrom, ApplyRange;
    SecondRow(Progress(2, 1), Progress(3, 1), 3);
    SecondRow(Progress(2, 0), Progress(3, 0), 2);
    var s' := Boss([X(), V()], 0, 0, 0, 1, 0, 3, 2);
    CountsTwo(s', Progress(2, 0), Progress(3, 2), 1);
    CountsTwo(s', Progress(2, 0), Progress(3, 2), 2);
    assert ScanCommit(s', 3, 2) == 2;
    assert ScanCommit(s', 2, 1) == 2;
    Hears(L1([X(), V()]), 3, 2, Progress(2, 1), Progress(3, 3), Progress(2, 0), Progress(3, 2), 2);
    AppliesEntry(s', 0, 2, 1);
    AppliesEntry(s', 0, 2, 2);
  }

  lemma Compacts()
    ensures Compact(Boss([X(), V()], 0, 0, 2, 1, 0, 3, 2), 0) == Boss([], 2, 1, 2, 1, 0, 3, 2)
  {
  }

  lemma NeedsSnapshot()
    ensures var s := Boss([], 2, 1, 2, 1, 0, 3, 2);
            WellFormed(s) && NeedSnapshot(2) in Heartbeat(s).actions && SnapshotSeq(s) == 2 && SnapshotEpoch(s) == 1
  {
    ReplicatesTwo(Boss([], 2, 1, 2, 1, 0, 3, 2), Progress(2, 1), Progress(3, 3));
  }

  lemma InstallsBoth(data: DbFile, sender: Option<Node>)
    ensures var s, msg := Following(2, 1, 1, [X()]), InstallSnapshot(1, 2, 1, data);
            var r := HandleSnapshot(s, 1, msg);
            && r.node == Installs() && Send(1, AppendResp(1, 2, true)) in r.actions
            && HarmlessSnapshot(s, sender, msg)
  {
  }

  lemma HearsInstalled()
    ensures HandleAppendResp(Boss([], 2, 1, 2, 1, 0, 3, 2), 2, AppendResp(1, 2, true)).node
         == Boss([], 2, 1, 2, 3, 2, 3, 2)
  {
    hide SetTo, RaiseTo, CountReached, Replicate, EntriesFrom;
    FirstRow(Progress(2, 1), Progress(3, 3), 3);
    FirstRow(Progress(2, 0), Progress(3, 2), 2);
    Hears(Boss([], 2, 1, 2, 1, 0, 3, 2), 2, 2, Progress(2, 3), Progress(3, 3), Progress(2, 2), Progress(3, 2), 2);
  }

  lemma ProposesBoth()
    ensures Propose(Boss([], 2, 1, 2, 3, 2, 3, 2), [3]).node == Boss([T()], 2, 1, 2, 3, 2, 3, 2)
    ensures var r := Propose(Boss([T()], 2, 1, 2, 3, 2, 3, 2), [4]);
            && r.node == Boss([T(), U()], 2, 1, 2, 3, 2, 3, 2)
            && Send(3, Append(1, 2, 1, [T(), U()], 2)) in r.actions
  {
    hide CountReached, Replicate;
    var s, t := Boss([], 2, 1, 2, 3, 2, 3, 2), Boss([T()], 2, 1, 2, 3, 2, 3, 2);
    assert With(s, [3]) == t && With(t, [4]) == Boss([T(), U()], 2, 1, 2, 3, 2, 3, 2);
    CountsTwo(t, Progress(2, 2), Progress(3, 2), 3);
    CountsTwo(With(t, [4]), Progress(2, 2), Progress(3, 2), 3);
    ProposesTo(s, Progress(2, 3), Progress(3, 3), [3], 2);
    ProposesTo(t, Progress(2, 3), Progress(3, 3), [4], 2);
    ShipsTail();
  }

  lemma ShipsTail()
    ensures EntriesFrom([T(), U()], 3) == [T(), U()]
  {
    assert [T(), U()][1..] == [U()] && [U()][1..] == [];
    assert EntriesFrom([U()], 3) == [U()];
  }

  lemma AcceptsTail()
    ensures var s, msg := Following(3, 1, 1, [X(), V()]), Append(1, 2, 1, [T(), U()], 2);
            var r := HandleAppend(s, 1, msg);
            r.node == Full() && Send(1, AppendResp(1, 4, true)) in r.actions && TruthfulAck(s, msg)
  {
    hide ApplyRange;
    var was := Merged([X(), V()], None);
    assert MergeOne(0, was, T()) == Merged([X(), V(), T()], Some(3));
    assert MergeOne(0, Merged([X(), V(), T()], Some(3)), U()) == Merged([X(), V(), T(), U()], Some(3));
    assert [T(), U()][1..] == [U()] && [U()][1..] == [];
    assert Merge(0, Merged([X(), V(), T()], Some(3)), [U()]) == Merged([X(), V(), T(), U()], Some(3));
    assert Merge(0, was, [T(), U()]) == Merged([X(), V(), T(), U()], Some(3));
  }

  lemma CommitsTail()
    ensures var r := HandleAppendResp(Boss([T(), U()], 2, 1, 2, 3, 2, 3, 2), 3, AppendResp(1, 4, true));
            && r.node == Boss([T(), U()], 2, 1, 4, 3, 2, 5, 4)
            && Apply(T()) in r.actions && Apply(U()) in r.actions
            && Send(2, Append(1, 2, 1, [T(), U()], 4)) in r.actions
  {
    hide SetTo, RaiseTo, CountReached, Replicate, ApplyRange;
    var s := Boss([T(), U()], 2, 1, 2, 3, 2, 3, 2);
    SecondRow(Progress(2, 3), Progress(3, 3), 5);
    SecondRow(Progress(2, 2), Progress(3, 2), 4);
    var s' := Boss([T(), U()], 2, 1, 2, 3, 2, 5, 4);
    CountsTwo(s', Progress(2, 2), Progress(3, 4), 3);
    CountsTwo(s', Progress(2, 2), Progress(3, 4), 4);
    assert ScanCommit(s', 5, 4) == 4;
    assert ScanCommit(s', 4, 3) == 4;
    Hears(s, 3, 4, Progress(2, 3), Progress(3, 5), Progress(2, 2), Progress(3, 4), 4);
    AppliesEntry(s', 2, 4, 3);
    AppliesEntry(s', 2, 4, 4);
    ShipsTail();
  }

  /** The entry found in the place of T has the epoch of T, so it stays. */
  lemma MergesAround()
    ensures Merge(2, Merged([X()], None), [T(), U()]) == Merged([X(), U()], Some(4))
  {
    assert MergeOne(2, Merged([X()], None), T()) == Merged([X()], None);
    assert MergeOne(2, Merged([X()], None), U()) == Merged([X(), U()], Some(4));
    assert [T(), U()][1..] == [U()] && [U()][1..] == [];
    assert Merge(2, Merged([X(), U()], Some(4)), []) == Merged([X(), U()], Some(4));
    assert Merge(2, Merged([X()], None), [U()]) == Merged([X(), U()], Some(4));
  }

  lemma RepeatsX()
    ensures var msg := Append(1, 2, 1, [T(), U()], 4);
            var r := HandleAppend(Restarted(), 1, msg);
            && r == Outcome(Shifted(), [PersistLog(4), Apply(X()), Apply(U()), Send(1, AppendResp(1, 4, true))])
            && TruthfulAck(Restarted(), msg)
  {
    hide Merge;
    MergesAround();
    var s := Restarted().(log := [X(), U()], leader := Some(1), commit := 4);
    assert EntryAt(s, 3) == Some(X()) && EntryAt(s, 4) == Some(U());
    assert ApplyRange(s, 4, 4) == [];
    assert ApplyRange(s, 3, 4) == [Apply(U())];
    assert ApplyRange(s, 2, 4) == [Apply(X()), Apply(U())];
  }

  lemma FileAfter(m: Machine, s: Node, disk: Disk, msg: Msg)
    ensures Save(m, s, disk, [PersistLog(4), Apply(X()), Apply(U()), Send(1, msg)]).file.db
         == Effect(m, Effect(m, disk.file.db, X().cmd), U().cmd)
  {
    var d1 := SaveLog(disk, s, 4);
    var d2 := d1.(file := ApplyFile(m, d1.file, X()));
    var d3 := d2.(file := ApplyFile(m, d2.file, U()));
    assert [PersistLog(4), Apply(X()), Apply(U()), Send(1, msg)][1..] == [Apply(X()), Apply(U()), Send(1, msg)];
    assert [Apply(X()), Apply(U()), Send(1, msg)][1..] == [Apply(U()), Send(1, msg)];
    assert [Apply(U()), Send(1, msg)][1..] == [Send(1, msg)] && [Send(1, msg)][1..] == [];
    assert Save(m, s, d3, [Send(1, msg)]) == d3;
    assert Save(m, s, d2, [Apply(U()), Send(1, msg)]) == d3;
    assert Save(m, s, d1, [Apply(X()), Apply(U()), Send(1, msg)]) == d3;
  }

  // ---------------------------------------------------------------- the run

  lemma ReachedUncompacted(m: Machine, cs: seq<Cluster>, evs: seq<Event>, c: Cluster)
    requires Reached(m, cs, evs, c, 16) && Uncompacted(evs)
    ensures UncompactedRun(m, Group(), cs, evs)
  {
    hide Guarded, Init;
    ReachedLast(m, cs, evs, c, 16);
    forall i {:trigger evs[i]} | 0 <= i < |evs|
      ensures Covered(false, cs[i], evs[i])
    {
      assert evs[i] in evs;
    }
  }

  /** Node 2 has exactly X on disk. */
  lemma StoresX(m: Machine) returns (cs: seq<Cluster>, evs: seq<Event>, c: Cluster)
    ensures |evs| == 6 && Reached(m, cs, evs, c, 16) && At(c, L1([X(), V()]), Following(2, 1, 1, [X()]), Idling(3))
    ensures c.hosts[2].disk.log == [X()] && Packet(1, 3, Append(1, 0, 0, [X(), V()], 0)) in c.net
  {
    hide Guarded, Protocol.Inv, Protocol.CommitInv, Mirrors, Step, Synced, CoveredRun, CleanDisk, VoteBacked;
    cs, evs, c := FirstAck(m, 16);
    ReachedUncompacted(m, cs, evs, c);
    var w := RunSimulated(false, m, Group(), cs, evs);
    assert HostOK(false, m, Group(), w, 2, c.hosts[2]);
    RestartLog(c.hosts[2].disk, c.hosts[2].node);
  }

  /** Node 1 commits both entries with node 3, compacts them away and sends node 2 a snapshot. */
  lemma SnapshotLeaves(m: Machine) returns (cs: seq<Cluster>, evs: seq<Event>, c: Cluster, data: DbFile)
    ensures |evs| == 10 && Reached(m, cs, evs, c, 16)
    ensures At(c, Boss([], 2, 1, 2, 1, 0, 3, 2), Following(2, 1, 1, [X()]), Following(3, 1, 1, [X(), V()]))
    ensures c.hosts[2].disk.log == [X()] && Packet(1, 2, InstallSnapshot(1, 2, 1, data)) in c.net
    ensures Application(1, X()) in c.applied && Application(1, V()) in c.applied
  {
    hide Reached, HandleAppend, HandleAppendResp, Replicate, TruthfulAck, Save, Heartbeat, Compact, ShrinkHost;
    var two, three := Following(2, 1, 1, [X()]), Following(3, 1, 1, [X(), V()]);
    cs, evs, c := StoresX(m);
    AcceptsBoth();
    cs, evs, c := Go(m, cs, evs, c, 16, L1([X(), V()]), two, Idling(3),
        Deliver(Packet(1, 3, Append(1, 0, 0, [X(), V()], 0))), three);
    CommitsBoth();
    cs, evs, c := Go(m, cs, evs, c, 16, L1([X(), V()]), two, three, Deliver(Packet(3, 1, AppendResp(1, 2, true))),
        Boss([X(), V()], 0, 0, 2, 1, 0, 3, 2));
    Compacts();
    var boss := Boss([], 2, 1, 2, 1, 0, 3, 2);
    cs, evs, c := GoShrink(m, cs, evs, c, 16, Boss([X(), V()], 0, 0, 2, 1, 0, 3, 2), two, three, 1, boss);
    NeedsSnapshot();
    SameNode(boss);
    cs, evs, c := Go(m, cs, evs, c, 16, boss, two, three, Pulse(1), boss);
    assert SnapshotFor(c, boss, 2);
    data :| Packet(1, 2, InstallSnapshot(1, 2, 1, data)) in c.net;
  }

  /** Node 2 installs the snapshot; the stored X stays. */
  lemma SnapshotLands(m: Machine) returns (cs: seq<Cluster>, evs: seq<Event>, c: Cluster)
    ensures |evs| == 12 && Reached(m, cs, evs, c, 16)
    ensures At(c, Boss([], 2, 1, 2, 3, 2, 3, 2), Installs(), Following(3, 1, 1, [X(), V()]))
    ensures c.hosts[2].disk.log == [X()] && Application(1, X()) in c.applied && Application(1, V()) in c.applied
  {
    hide Reached, HandleSnapshot, HandleAppendResp, Replicate, HarmlessSnapshot, Save;
    var boss, two, three := Boss([], 2, 1, 2, 1, 0, 3, 2), Following(2, 1, 1, [X()]), Following(3, 1, 1, [X(), V()]);
    var data;
    cs, evs, c, data := SnapshotLeaves(m);
    var msg := InstallSnapshot(1, 2, 1, data);
    InstallsBoth(data, Sender(c, Packet(1, 2, msg)));
    InstalledDisk(m, two, c.hosts[2].disk, 1, msg);
    assert EntriesBelow([X()], 3) == [X()] by { assert [X()][1..] == []; }
    cs, evs, c := Go(m, cs, evs, c, 16, boss, two, three, Deliver(Packet(1, 2, msg)), Installs());
    HearsInstalled();
    cs, evs, c := Go(m, cs, evs, c, 16, boss, Installs(), three, Deliver(Packet(2, 1, AppendResp(1, 2, true))),
        Boss([], 2, 1, 2, 3, 2, 3, 2));
  }

  /** Node 1 proposes T and U. */
  lemma TailProposed(m: Machine) returns (cs: seq<Cluster>, evs: seq<Event>, c: Cluster)
    ensures |evs| == 14 && Reached(m, cs, evs, c, 16)
    ensures At(c, Boss([T(), U()], 2, 1, 2, 3, 2, 3, 2), Installs(), Following(3, 1, 1, [X(), V()]))
    ensures c.hosts[2].disk.log == [X()] && Application(1, X()) in c.applied && Application(1, V()) in c.applied
    ensures Packet(1, 3, Append(1, 2, 1, [T(), U()], 2)) in c.net
  {
    hide Reached, Propose, Replicate, Save;
    var three := Following(3, 1, 1, [X(), V()]);
    cs, evs, c := SnapshotLands(m);
    ProposesBoth();
    cs, evs, c := Go(m, cs, evs, c, 16, Boss([], 2, 1, 2, 3, 2, 3, 2), Installs(), three, Client(1, [3]),
        Boss([T()], 2, 1, 2, 3, 2, 3, 2));
    cs, evs, c := Go(m, cs, evs, c, 16, Boss([T()], 2, 1, 2, 3, 2, 3, 2), Installs(), three, Client(1, [4]),
        Boss([T(), U()], 2, 1, 2, 3, 2, 3, 2));
  }

  ghost predicate AllApplied(c: Cluster) {
    forall e :: e in [X(), V(), T(), U()] ==> Application(1, e) in c.applied
  }

  /** Node 1 commits T and U with node 3 and ships them to node 2. */
  lemma TailCommitted(m: Machine) returns (cs: seq<Cluster>, evs: seq<Event>, c: Cluster)
    ensures |evs| == 16 && Reached(m, cs, evs, c, 16)
    ensures At(c, Boss([T(), U()], 2, 1, 4, 3, 2, 5, 4), Installs(), Full())
    ensures c.hosts[2].disk.log == [X()] && AllApplied(c) && Packet(1, 2, Append(1, 2, 1, [T(), U()], 4)) in c.net
  {
    hide Reached, HandleAppend, HandleAppendResp, Replicate, TruthfulAck, Save;
    var boss := Boss([T(), U()], 2, 1, 2, 3, 2, 3, 2);
    cs, evs, c := TailProposed(m);
    AcceptsTail();
    cs, evs, c := Go(m, cs, evs, c, 16, boss, Installs(), Following(3, 1, 1, [X(), V()]),
        Deliver(Packet(1, 3, Append(1, 2, 1, [T(), U()], 2))), Full());
    CommitsTail();
    cs, evs, c := Go(m, cs, evs, c, 16, boss, Installs(), Full(), Deliver(Packet(3, 1, AppendResp(1, 4, true))),
        Boss([T(), U()], 2, 1, 4, 3, 2, 5, 4));
  }

  /** So far one history explains both databases. */
  lemma StillRight(m: Machine, cs: seq<Cluster>, evs: seq<Event>, c: Cluster)
    requires |evs| == 16 && Reached(m, cs, evs, c, 16) && AllApplied(c)
    requires At(c, Boss([T(), U()], 2, 1, 4, 3, 2, 5, 4), Installs(), Full())
    ensures c.hosts[1].disk.file.db == Replay(m, [X(), V(), T(), U()])
    ensures c.hosts[2].disk.file.db == Replay(m, [X(), V()])
    ensures SameMeta(c.hosts[2].disk, Installs()) && c.hosts[2].disk.file.marker <= 2
  {
    hide Guarded, Step, Replay, Init, Protocol.Inv, Protocol.CommitInv, Mirrors;
    assert GuardedRun(m, Group(), cs, evs) by { ReachedGuarded(m, cs, evs, c); }
    var t := OneHistory(m, Group(), cs, evs);
    assert Explains(m, t, cs[|evs|]);
    assert Application(1, X()) in c.applied && Application(1, V()) in c.applied;
    assert Application(1, T()) in c.applied && Application(1, U()) in c.applied;
    assert t[..4] == [X(), V(), T(), U()] && t[..2] == [X(), V()];
    assert ExplainsHost(m, t, c.hosts[1]) && ExplainsHost(m, t, c.hosts[2]);
    StoredAt(m, cs, evs, c);
  }

  lemma ReachedGuarded(m: Machine, cs: seq<Cluster>, evs: seq<Event>, c: Cluster)
    requires |evs| == 16 && Reached(m, cs, evs, c, 16)
    ensures GuardedRun(m, Group(), cs, evs)
  {
    hide Guarded;
    ReachedLast(m, cs, evs, c, 16);
  }

  lemma StoredAt(m: Machine, cs: seq<Cluster>, evs: seq<Event>, c: Cluster)
    requires |evs| == 16 && Reached(m, cs, evs, c, 16) && 2 in c.hosts
    ensures SameMeta(c.hosts[2].disk, c.hosts[2].node) && c.hosts[2].disk.file.marker <= c.hosts[2].node.applied
  {
    hide Protocol.Inv, Protocol.CommitInv, Mirrors, CoveredRun, VoteBacked, RowsOK, Settled;
    ReachedGuarded(m, cs, evs, c);
    ReachedLast(m, cs, evs, c, 16);
    var w := RunSimulated(true, m, Group(), cs, evs);
    assert HostOK(true, m, Group(), w, 2, c.hosts[2]);
  }

  lemma RestartsShifted(h: Host)
    requires h.node == Installs() && SameMeta(h.disk, h.node) && h.disk.file.marker <= 2 && h.disk.log == [X()]
    ensures RestartHost(h, Group()).node == Restarted() && !CleanDisk(h.disk)
  {
    SortedHere();
    assert X() in h.disk.log;
  }

  /**
  As written, one restart that meets a stale stored entry takes a database off the
  history: nodes 1 and 2 have both applied four entries, but node 2 executed X twice
  and T never.  Every other event of the run is guarded.
  */
  lemma RestartBreaksDatabase(m: Machine) returns (cs: seq<Cluster>, evs: seq<Event>)
    ensures IsRun(m, [1, 2, 3], cs, evs) && |evs| == 18 && evs[16] == Crash(2)
    ensures forall i {:trigger evs[i]} :: 0 <= i < |evs| ==> Enabled(cs[i], evs[i]) && (Guarded(cs[i], evs[i]) <==> i != 16)
    ensures 1 in cs[18].hosts && 2 in cs[18].hosts
    ensures cs[18].hosts[1].node.applied == 4 && cs[18].hosts[1].disk.file.db == Replay(m, [X(), V(), T(), U()])
    ensures cs[18].hosts[2].node.applied == 4 && cs[18].hosts[2].disk.file.db == Replay(m, [X(), V(), X(), U()])
    ensures EntryAt(cs[18].hosts[2].node, 3) == Some(X()) && X().seqno == 1
  {
    hide IsRun, Reached, HandleAppend, TruthfulAck, Save, Replay, RestartHost, CleanDisk, Replicate;
    var boss := Boss([T(), U()], 2, 1, 4, 3, 2, 5, 4);
    var c;
    cs, evs, c := TailCommitted(m);
    StillRight(m, cs, evs, c);
    RestartsShifted(c.hosts[2]);
    var disk := c.hosts[2].disk;
    cs, evs, c := GoCrash(m, cs, evs, c, 16, boss, Installs(), Full(), 2, Restarted());
    RepeatsX();
    cs, evs, c := Go(m, cs, evs, c, 16, boss, Restarted(), Full(),
        Deliver(Packet(1, 2, Append(1, 2, 1, [T(), U()], 4))), Shifted());
    FileAfter(m, Shifted(), disk, AppendResp(1, 4, true));
    ReplaysTwice(m);
    ReachedLast(m, cs, evs, c, 16);
  }

  lemma ReplaysTwice(m: Machine)
    ensures Replay(m, [X(), V(), X(), U()]) == Effect(m, Effect(m, Replay(m, [X(), V()]), X().cmd), U().cmd)
  {
    assert [X(), V(), X(), U()][..3] == [X(), V(), X()] && [X(), V(), X()][..2] == [X(), V()];
  }
}
