/** Machinery for runs of three nodes written out event by event. */
module ConcreteRun {
  import opened Options
  import opened Quorum
  import opened Collections
  import opened Cluster
  import opened Turns
  import opened Storage
  import opened SimLeader
  import opened Guards

  function Group(): seq<Id> { [1, 2, 3] }

  /** The first two entries of epoch 1, proposed by node 1. */
  function X(): Entry { Entry(1, 1, [1]) }
  function V(): Entry { Entry(1, 2, [2]) }

  function Idling(id: Id): Node { Node(id, Group(), 0, None, [], 0, 0, 0, 0, Follower, None) }
  function Granted(id: Id, epoch: nat, to: Id): Node { Node(id, Group(), epoch, Some(to), [], 0, 0, 0, 0, Follower,
          None) }
  function Standing(id: Id, epoch: nat, log: seq<Entry>): Node { Node(id, Group(), epoch, Some(id), log, 0, 0, 0, 0,
          Candidate([id]), None) }

  function Following(id: Id, epoch: nat, to: Id, log: seq<Entry>): Node {
    Node(id, Group(), epoch, Some(to), log, 0, 0, 0, 0, Follower, Some(to))
  }

  function Leading(id: Id, epoch: nat, log: seq<Entry>, done: nat, p: Id, np: nat, mp: nat, q: Id, nq: nat,
          mq: nat): Node {
    Node(id, Group(), epoch, Some(id), log, 0, 0, done, done,
         Leader([Progress(p, np), Progress(q, nq)], [Progress(p, mp), Progress(q, mq)]), None)
  }

  function L1(log: seq<Entry>): Node { Leading(1, 1, log, 0, 2, 1, 0, 3, 1, 0) }

  // ---------------------------------------------------------------- turns

  lemma OthersHere()
    ensures Others(Group(), 1) == [2, 3] && Others(Group(), 2) == [1, 3] && Others(Group(), 3) == [1, 2]
  {
    assert Group()[1..] == [2, 3] && Group()[1..][1..] == [3] && Group()[1..][1..][1..] == [];
    assert Others([3], 1) == [3] && Others([3], 2) == [3] && Others([3], 3) == [];
    assert Others([2, 3], 1) == [2, 3] && Others([2, 3], 2) == [3] && Others([2, 3], 3) == [2];
  }

  /** A node that times out stands in the next epoch and asks both others. */
  lemma Stands(s: Node, a: Id, b: Id)
    requires s.group == Group() && !s.role.Leader? && Others(Group(), s.me) == [a, b]
    ensures var r := TickElection(s);
            var ask := VoteReq(s.epoch + 1, LastEpochOf(s), LastSeq(s));
            && r.node == s.(epoch := s.epoch + 1, votedFor := Some(s.me), leader := None, role := Candidate([s.me]))
            && Send(a, ask) in r.actions && Send(b, ask) in r.actions
  {
    var ask := VoteReq(s.epoch + 1, LastEpochOf(s), LastSeq(s));
    assert [a, b][1..] == [b] && [b][1..] == [];
    assert SendEach([b], ask) == [Send(b, ask)];
    assert SendEach([a, b], ask) == [Send(a, ask), Send(b, ask)];
    var r := TickElection(s);
    assert r.actions[1] == Send(a, ask) && r.actions[2] == Send(b, ask);
  }

  lemma TracksTwo(a: Id, b: Id, at: nat)
    ensures TrackEach([a, b], at) == [Progress(a, at), Progress(b, at)]
  {
    TrackEachAt([a, b], at);
  }

  lemma ReplicatesTwo(s: Node, p: Progress, q: Progress)
    requires p.at > 0 && q.at > 0
    ensures AllPositive([p, q]) && Replicate(s, [p, q]) == [ReplicateOne(s, p), ReplicateOne(s, q)]
  {
    assert [p, q][1..] == [q] && [q][1..] == [];
    assert Replicate(s, [q]) == [ReplicateOne(s, q)];
  }

  /** A voter that has nothing grants its vote. */
  lemma VotesFor(s: Node, from: Id, epoch: nat, lastEpoch: nat, lastSeq: nat)
    requires s.log == [] && s.baseSeq == 0 && s.baseEpoch == 0 && epoch > s.epoch && s.role.Follower?
    ensures var r := HandleVoteReq(s, from, VoteReq(epoch, lastEpoch, lastSeq));
            && r.node == s.(epoch := epoch, votedFor := Some(from), leader := None)
            && Send(from, VoteResp(epoch, true)) in r.actions
  {
  }

  lemma CountsTwo(s: Node, p: Progress, q: Progress, n: nat)
    requires s.role.Leader? && s.role.matched == [p, q]
    ensures Replicas(s.role.matched, n) == 1 + (if p.at >= n then 1 else 0) + (if q.at >= n then 1 else 0)
  {
    assert [p, q][1..] == [q] && [q][1..] == [];
    assert CountReached([q], n) == if q.at >= n then 1 else 0;
  }

  lemma SecondRow(p: Progress, q: Progress, at: nat)
    requires p.id != q.id
    ensures SetTo([p, q], q.id, at) == [p, Progress(q.id, at)]
    ensures RaiseTo([p, q], q.id, at) == [p, Progress(q.id, Max(q.at, at))]
  {
    assert [p, q][1..] == [q] && [q][1..] == [];
    assert SetTo([q], q.id, at) == [Progress(q.id, at)];
    assert RaiseTo([q], q.id, at) == [Progress(q.id, Max(q.at, at))];
  }

  lemma FirstRow(p: Progress, q: Progress, at: nat)
    ensures SetTo([p, q], p.id, at) == [Progress(p.id, at), q]
    ensures RaiseTo([p, q], p.id, at) == [Progress(p.id, Max(p.at, at)), q]
  {
    assert [p, q][1..] == [q];
  }

  lemma ShipsFirst()
    ensures [] + [X()] == [X()]
    ensures ReplicateOne(L1([X()]), Progress(2, 1)) == Send(2, Append(1, 0, 0, [X()], 0))
  {
    assert [X()][1..] == [];
    assert EntriesFrom([X()], 1) == [X()];
  }

  // ---------------------------------------------------------------- turns of any node of the group

  /** The second vote of three elects, whatever the candidate holds. */
  lemma WinsWith(s: Node, from: Id, a: Id, b: Id)
    requires s.group == Group() && s.role == Candidate([s.me]) && from != s.me && Others(Group(), s.me) == [a, b]
    ensures var q := LastSeq(s) + 1;
            var s' := s.(role := Leader([Progress(a, q), Progress(b, q)], [Progress(a, 0), Progress(b, 0)]));
            var r := HandleVoteResp(s, from, VoteResp(s.epoch, true));
            r.node == s' && ReplicateOne(s', Progress(a, q)) in r.actions && ReplicateOne(s', Progress(b, q)) in r.actions
  {
    hide TrackEach, Replicate, ReplicateOne;
    var q := LastSeq(s) + 1;
    TracksTwo(a, b, q);
    TracksTwo(a, b, 0);
    var s' := s.(role := Leader([Progress(a, q), Progress(b, q)], [Progress(a, 0), Progress(b, 0)]));
    var t := s.(role := Candidate([s.me] + [from]));
    assert TryWin(t).node == s';
    assert TryWin(t).actions == [BecameLeader] + ReplicateAll(s');
    ReplicatesTwo(s', Progress(a, q), Progress(b, q));
    assert TryWin(t).actions[1] == ReplicateOne(s', Progress(a, q));
    assert TryWin(t).actions[2] == ReplicateOne(s', Progress(b, q));
  }

  /** A node with entry `e` of its own epoch at the end of its log. */
  function With(s: Node, cmd: Command): Node {
    s.(log := s.log + [Entry(s.epoch, LastSeq(s) + 1, cmd)])
  }

  function Reaching(s: Node, point: nat): Node {
    s.(commit := point, applied := point)
  }

  ghost predicate TwoRows(s: Node, p: Progress, q: Progress) {
    s.role.Leader? && s.role.next == [p, q] && p.at > 0 && q.at > 0
  }

  /** What the commit scan of a leader of three finds, and what follows from it. */
  lemma Advances(s: Node, p: Progress, q: Progress, point: nat)
    requires TwoRows(s, p, q) && s.applied == s.commit && ScanCommit(s, s.commit + 1, s.commit) == point
    ensures var r := AdvanceCommit(s);
            && r.node == Reaching(s, point)
            && (forall a :: a in ApplyRange(s, s.commit, point) ==> a in r.actions)
            && (point > s.commit ==>
                  ReplicateOne(Reaching(s, point), p) in r.actions && ReplicateOne(Reaching(s, point), q) in r.actions)
  {
    hide Replicate, ReplicateOne, ApplyRange, ScanCommit;
    AdvanceIs(s);
    assert point >= s.commit by { ScanForward(s, s.commit + 1, s.commit); }
    ReplicatesTwo(Reaching(s, point), p, q);
  }

  lemma {:induction false} ScanForward(s: Node, n: nat, candidate: nat)
    requires s.role.Leader? && n > candidate
    ensures ScanCommit(s, n, candidate) >= candidate
    decreases LastSeq(s) + 1 - n
  {
    if !(n > LastSeq(s) || Replicas(s.role.matched, n) < MajorityOf(s)) {
      ScanForward(s, n + 1, if EntryAt(s, n).Some? && EntryAt(s, n).value.epoch == s.epoch then n else candidate);
    }
  }

  lemma ProposesTo(s: Node, p: Progress, q: Progress, cmd: Command, point: nat)
    requires TwoRows(s, p, q) && s.applied == s.commit && ScanCommit(With(s, cmd), s.commit + 1, s.commit) == point
    ensures var r, s' := Propose(s, cmd), With(s, cmd);
            && r.node == Reaching(s', point)
            && (forall a :: a in ApplyRange(s', s.commit, point) ==> a in r.actions)
            && ReplicateOne(s', p) in r.actions && ReplicateOne(s', q) in r.actions
  {
    hide Replicate, ReplicateOne, ApplyRange, ScanCommit, AdvanceCommit;
    var s' := With(s, cmd);
    Advances(s', p, q, point);
    ReplicatesTwo(s', p, q);
    var r := Propose(s, cmd);
    assert r.actions == [PersistLog(LastSeq(s) + 1)] + [ReplicateOne(s', p), ReplicateOne(s', q)] + AdvanceCommit(s').actions;
    assert r.actions[1] == ReplicateOne(s', p) && r.actions[2] == ReplicateOne(s', q);
  }

  /** A leader that has heard of nobody yet proposes and commits nothing. */
  lemma Proposes(id: Id, epoch: nat, log: seq<Entry>, p: Id, np: nat, q: Id, nq: nat, cmd: Command)
    requires np > 0 && nq > 0 && log in {[], [X()]}
    ensures var s := Leading(id, epoch, log, 0, p, np, 0, q, nq, 0);
            var s' := s.(log := log + [Entry(epoch, |log| + 1, cmd)]);
            var r := Propose(s, cmd);
            r.node == s' && ReplicateOne(s', Progress(p, np)) in r.actions && ReplicateOne(s', Progress(q, nq)) in r.actions
  {
    var s := Leading(id, epoch, log, 0, p, np, 0, q, nq, 0);
    CountsTwo(With(s, cmd), Progress(p, 0), Progress(q, 0), 1);
    ProposesTo(s, Progress(p, np), Progress(q, nq), cmd, 0);
  }

  /** A leader hears an acknowledgement; its rows become `p`, `q` and `mp`, `mq`. */
  lemma Hears(s: Node, from: Id, at: nat, p: Progress, q: Progress, mp: Progress, mq: Progress, point: nat)
    requires WellFormed(s) && s.role.Leader? && s.applied == s.commit && p.at > 0 && q.at > 0
    requires SetTo(s.role.next, from, at + 1) == [p, q] && RaiseTo(s.role.matched, from, at) == [mp, mq]
    requires ScanCommit(s.(role := Leader([p, q], [mp, mq])), s.commit + 1, s.commit) == point
    ensures var r, s' := HandleAppendResp(s, from, AppendResp(s.epoch, at, true)), s.(role := Leader([p, q], [mp, mq]));
            && r.node == Reaching(s', point)
            && (forall a :: a in ApplyRange(s', s.commit, point) ==> a in r.actions)
            && (point > s.commit ==>
                  ReplicateOne(Reaching(s', point), p) in r.actions && ReplicateOne(Reaching(s', point), q) in r.actions)
  {
    hide Replicate, ReplicateOne, ApplyRange, ScanCommit, AdvanceCommit;
    RowsPositive(s.role.next, from, at + 1, 0);
    Advances(s.(role := Leader([p, q], [mp, mq])), p, q, point);
  }

  /** A leader hears a rejection; its next row becomes `p`, `q`. */
  lemma IsRefused(s: Node, from: Id, hint: nat, p: Progress, q: Progress)
    requires WellFormed(s) && s.role.Leader? && p.at > 0 && q.at > 0
    requires BackUpRow(s.role.next, from, s.baseSeq, hint) == [p, q]
    ensures var r, s' := HandleAppendResp(s, from, AppendResp(s.epoch, hint, false)), s.(role := Leader([p, q], s.role.matched));
            r.node == s' && ReplicateOne(s', p) in r.actions && ReplicateOne(s', q) in r.actions
  {
    hide Replicate, ReplicateOne;
    RowsPositive(s.role.next, from, hint, s.baseSeq);
    ReplicatesTwo(s.(role := Leader([p, q], s.role.matched)), p, q);
  }

  lemma {:induction false} AppliesEntry(s: Node, lo: nat, hi: nat, q: nat)
    requires lo < q <= hi && EntryAt(s, q).Some?
    ensures Apply(EntryAt(s, q).value) in ApplyRange(s, lo, hi)
    decreases hi - lo
  {
    if lo + 1 < q {
      AppliesEntry(s, lo + 1, hi, q);
    }
  }

  lemma BacksUp(p: Progress, q: Progress, base: nat, hint: nat)
    requires p.id != q.id
    ensures BackUpRow([p, q], p.id, base, hint) == [Progress(p.id, BackUp(base, p.at, hint)), q]
    ensures BackUpRow([p, q], q.id, base, hint) == [p, Progress(q.id, BackUp(base, q.at, hint))]
  {
    assert [p, q][1..] == [q] && [q][1..] == [];
    assert BackUpRow([q], q.id, base, hint) == [Progress(q.id, BackUp(base, q.at, hint))];
  }

  lemma AcceptsFirst()
    ensures var r := HandleAppend(Granted(2, 1, 1), 1, Append(1, 0, 0, [X()], 0));
            r.node == Following(2, 1, 1, [X()]) && Send(1, AppendResp(1, 1, true)) in r.actions
    ensures TruthfulAck(Granted(2, 1, 1), Append(1, 0, 0, [X()], 0))
  {
    var acc := Merged([], None);
    assert MergeOne(0, acc, X()) == Merged([X()], Some(1));
    assert [X()][1..] == [];
    assert Merge(0, Merged([X()], Some(1)), []) == Merged([X()], Some(1));
    assert Merge(0, acc, [X()]) == Merged([X()], Some(1));
  }

  lemma ShipsBoth()
    ensures [X()] + [V()] == [X(), V()]
    ensures ReplicateOne(L1([X(), V()]), Progress(3, 1)) == Send(3, Append(1, 0, 0, [X(), V()], 0))
  {
    assert [X(), V()][1..] == [V()] && [V()][1..] == [];
    assert EntriesFrom([V()], 1) == [V()];
    assert EntriesFrom([X(), V()], 1) == [X(), V()];
  }

  lemma AcceptsBoth()
    ensures var r := HandleAppend(Idling(3), 1, Append(1, 0, 0, [X(), V()], 0));
            r.node == Following(3, 1, 1, [X(), V()]) && Send(1, AppendResp(1, 2, true)) in r.actions
    ensures TruthfulAck(Idling(3), Append(1, 0, 0, [X(), V()], 0))
  {
    var acc := Merged([], None);
    assert MergeOne(0, acc, X()) == Merged([X()], Some(1));
    assert MergeOne(0, Merged([X()], Some(1)), V()) == Merged([X(), V()], Some(1));
    assert [X(), V()][1..] == [V()] && [V()][1..] == [];
    assert Merge(0, Merged([X(), V()], Some(1)), []) == Merged([X(), V()], Some(1));
    assert Merge(0, Merged([X()], Some(1)), [V()]) == Merged([X(), V()], Some(1));
    assert Merge(0, acc, [X(), V()]) == Merged([X(), V()], Some(1));
  }

  lemma SameNode(s: Node)
    requires WellFormed(s)
    ensures Heartbeat(s).node == s
  {
  }

  // ---------------------------------------------------------------- runs

  ghost predicate At(c: Cluster, a: Node, b: Node, d: Node) {
    c.hosts.Keys == {1, 2, 3} && c.hosts[1].node == a && c.hosts[2].node == b && c.hosts[3].node == d
    && WellFormed(a) && WellFormed(b) && WellFormed(d)
  }

  /** The run so far ends in `c`, and event `k` is the only one its guard rules out. */
  ghost predicate Reached(m: Machine, cs: seq<Cluster>, evs: seq<Event>, c: Cluster, k: nat) {
    && IsRun(m, Group(), cs, evs) && c == cs[|evs|]
    && forall i {:trigger evs[i]} :: 0 <= i < |evs| ==> (Guarded(cs[i], evs[i]) <==> i != k)
  }

  predicate Uncompacted(evs: seq<Event>) {
    forall ev :: ev in evs ==> !ev.Shrink?
  }

  /** The node's snapshot is on its way to `to`. */
  ghost predicate SnapshotFor(c: Cluster, s: Node, to: Id) {
    exists data :: Packet(s.me, to, InstallSnapshot(s.epoch, SnapshotSeq(s), SnapshotEpoch(s), data)) in c.net
  }

  /** One more event. */
  lemma Go(m: Machine, cs: seq<Cluster>, evs: seq<Event>, c: Cluster, k: nat, a: Node, b: Node, d: Node, ev: Event,
          s: Node)
    returns (cs': seq<Cluster>, evs': seq<Event>, c': Cluster)
    requires Reached(m, cs, evs, c, k) && At(c, a, b, d) && Enabled(c, ev) && (Guarded(c, ev) <==> |evs| != k)
    requires !ev.Shrink? && !ev.Crash?
    requires Turn(c.hosts[Actor(ev)].node, ev).node == s && WellFormed(s) && s.me == Actor(ev)
    ensures cs' == cs + [c'] && evs' == evs + [ev] && Reached(m, cs', evs', c', k)
    ensures var id := Actor(ev); At(c', if id == 1 then s else a, if id == 2 then s else b, if id == 3 then s else d)
    ensures c.net <= c'.net && c.applied <= c'.applied
    ensures var r := Turn(c.hosts[Actor(ev)].node, ev);
            && (forall to, msg :: Send(to, msg) in r.actions ==> Packet(s.me, to, msg) in c'.net)
            && (forall e :: Apply(e) in r.actions ==> Application(s.me, e) in c'.applied)
            && (forall to :: NeedSnapshot(to) in r.actions ==> SnapshotFor(c', s, to))
            && c'.hosts == c.hosts[s.me := Host(s, Save(m, s, c.hosts[s.me].disk, r.actions))]
  {
    hide Turn, Save, Sends, Reached, Guarded, SnapshotEpoch, WellFormed;
    var r := Turn(c.hosts[Actor(ev)].node, ev);
    var h := c.hosts[Actor(ev)];
    c' := Next(m, Group(), c, ev);
    cs', evs' := cs + [c'], evs + [ev];
    forall to, msg | Send(to, msg) in r.actions
      ensures Packet(s.me, to, msg) in c'.net
    {
      SendIsSent(m, r.node, h.disk, r.actions, to, msg);
    }
    forall to | NeedSnapshot(to) in r.actions
      ensures SnapshotFor(c', s, to)
    {
      var data := SnapshotIsSent(m, r.node, h.disk, r.actions, to);
      assert Packet(s.me, to, InstallSnapshot(s.epoch, SnapshotSeq(s), SnapshotEpoch(s), data)) in c'.net;
    }
    Extended(m, cs, evs, c, ev, c', k);
  }

  lemma Extended(m: Machine, cs: seq<Cluster>, evs: seq<Event>, c: Cluster, ev: Event, c': Cluster, k: nat)
    requires Reached(m, cs, evs, c, k) && Step(m, Group(), c, ev, c') && (Guarded(c, ev) <==> |evs| != k)
    ensures Reached(m, cs + [c'], evs + [ev], c', k)
  {
    hide Next, AllWellFormed, Guarded, Init;
    var cs', evs' := cs + [c'], evs + [ev];
    forall i {:trigger evs'[i]} | 0 <= i < |evs'|
      ensures Step(m, Group(), cs'[i], evs'[i], cs'[i + 1]) && (Guarded(cs'[i], evs'[i]) <==> i != k)
    {
      if i < |evs| {
        assert evs'[i] == evs[i];
      }
    }
  }

  lemma {:induction false} SendIsSent(m: Machine, s: Node, disk: Disk, actions: seq<Action>, to: Id, msg: Msg)
    requires Send(to, msg) in actions
    ensures Packet(s.me, to, msg) in Sends(m, s, disk, actions)
    decreases |actions|
  {
    if actions[0] != Send(to, msg) {
      SendIsSent(m, s, SaveOne(m, s, disk, actions[0]), actions[1..], to, msg);
    }
  }

  lemma {:induction false} SnapshotIsSent(m: Machine, s: Node, disk: Disk, actions: seq<Action>, to: Id)
    returns (data: DbFile)
    requires NeedSnapshot(to) in actions
    ensures Packet(s.me, to, InstallSnapshot(s.epoch, SnapshotSeq(s), SnapshotEpoch(s), data)) in Sends(m, s, disk, actions)
    decreases |actions|
  {
    if actions[0] == NeedSnapshot(to) {
      data := disk.file;
    } else {
      data := SnapshotIsSent(m, s, SaveOne(m, s, disk, actions[0]), actions[1..], to);
    }
  }

  /** One compaction. */
  lemma GoShrink(m: Machine, cs: seq<Cluster>, evs: seq<Event>, c: Cluster, k: nat, a: Node, b: Node, d: Node, id: Id,
          s: Node)
    returns (cs': seq<Cluster>, evs': seq<Event>, c': Cluster)
    requires Reached(m, cs, evs, c, k) && At(c, a, b, d) && |evs| != k && id in c.hosts
    requires Compact(c.hosts[id].node, 0) == s && WellFormed(s)
    ensures cs' == cs + [c'] && evs' == evs + [Shrink(id, 0)] && Reached(m, cs', evs', c', k)
    ensures At(c', if id == 1 then s else a, if id == 2 then s else b, if id == 3 then s else d)
    ensures c' == c.(hosts := c.hosts[id := ShrinkHost(c.hosts[id], 0)])
  {
    c' := Next(m, Group(), c, Shrink(id, 0));
    cs', evs' := cs + [c'], evs + [Shrink(id, 0)];
    Extended(m, cs, evs, c, Shrink(id, 0), c', k);
  }

  /** One restart. */
  lemma GoCrash(m: Machine, cs: seq<Cluster>, evs: seq<Event>, c: Cluster, k: nat, a: Node, b: Node, d: Node, id: Id,
          s: Node)
    returns (cs': seq<Cluster>, evs': seq<Event>, c': Cluster)
    requires Reached(m, cs, evs, c, k) && At(c, a, b, d) && id in c.hosts && (CleanDisk(c.hosts[id].disk) <==> |evs| != k)
    requires RestartHost(c.hosts[id], Group()).node == s && WellFormed(s)
    ensures cs' == cs + [c'] && evs' == evs + [Crash(id)] && Reached(m, cs', evs', c', k)
    ensures At(c', if id == 1 then s else a, if id == 2 then s else b, if id == 3 then s else d)
    ensures c' == c.(hosts := c.hosts[id := Host(s, c.hosts[id].disk)])
  {
    c' := Next(m, Group(), c, Crash(id));
    cs', evs' := cs + [c'], evs + [Crash(id)];
    Extended(m, cs, evs, c, Crash(id), c', k);
  }

  lemma Begin(m: Machine, k: nat) returns (cs: seq<Cluster>, evs: seq<Event>, c: Cluster)
    ensures evs == [] && Reached(m, cs, evs, c, k) && At(c, Idling(1), Idling(2), Idling(3))
  {
    SortedHere();
    cs, evs, c := [Init(m, Group())], [], Init(m, Group());
  }

  lemma SortedHere()
    ensures Sort(Group()) == [1, 2, 3]
  {
    assert Group()[1..] == [2, 3] && [2, 3][1..] == [3] && [3][1..] == [];
    assert Sort([3]) == [3];
    assert Insert(2, [3]) == [2, 3];
    assert Sort([2, 3]) == [2, 3];
    assert Insert(1, [2, 3]) == [1, 2, 3];
  }

  /** Node 1 stands in epoch 1 and node 2 votes for it. */
  lemma FirstVote(m: Machine, k: nat) returns (cs: seq<Cluster>, evs: seq<Event>, c: Cluster)
    requires k > 4
    ensures |evs| == 2 && Uncompacted(evs) && Reached(m, cs, evs, c, k) && At(c, Standing(1, 1, []), Granted(2, 1, 1), Idling(3))
    ensures Packet(2, 1, VoteResp(1, true)) in c.net
  {
    hide Reached, Others, TickElection, HandleVoteReq, Save, SnapshotFor;
    cs, evs, c := Begin(m, k);
    OthersHere();
    Stands(Idling(1), 2, 3);
    cs, evs, c := Go(m, cs, evs, c, k, Idling(1), Idling(2), Idling(3), Timeout(1), Standing(1, 1, []));
    VotesFor(Idling(2), 1, 1, 0, 0);
    cs, evs, c := Go(m, cs, evs, c, k, Standing(1, 1, []), Idling(2), Idling(3),
        Deliver(Packet(1, 2, VoteReq(1, 0, 0))), Granted(2, 1, 1));
  }

  /** Node 1 leads epoch 1 and proposes X. */
  lemma FirstReign(m: Machine, k: nat) returns (cs: seq<Cluster>, evs: seq<Event>, c: Cluster)
    requires k > 4
    ensures |evs| == 4 && Uncompacted(evs) && Reached(m, cs, evs, c, k) && At(c, L1([X()]), Granted(2, 1, 1), Idling(3))
    ensures Packet(1, 2, Append(1, 0, 0, [X()], 0)) in c.net
  {
    hide Reached, Others, HandleVoteResp, Propose, Replicate, ReplicateOne, Save, SnapshotFor;
    cs, evs, c := FirstVote(m, k);
    OthersHere();
    WinsWith(Standing(1, 1, []), 2, 2, 3);
    cs, evs, c := Go(m, cs, evs, c, k, Standing(1, 1, []), Granted(2, 1, 1), Idling(3),
        Deliver(Packet(2, 1, VoteResp(1, true))), L1([]));
    Proposes(1, 1, [], 2, 1, 3, 1, [1]);
    ShipsFirst();
    cs, evs, c := Go(m, cs, evs, c, k, L1([]), Granted(2, 1, 1), Idling(3), Client(1, [1]), L1([X()]));
  }

  /** Node 1 has proposed X and V; node 2 has X. */
  lemma FirstAck(m: Machine, k: nat) returns (cs: seq<Cluster>, evs: seq<Event>, c: Cluster)
    requires k > 6
    ensures |evs| == 6 && Uncompacted(evs) && Reached(m, cs, evs, c, k) && At(c, L1([X(), V()]), Following(2, 1, 1, [X()]), Idling(3))
    ensures Packet(2, 1, AppendResp(1, 1, true)) in c.net && Packet(1, 3, Append(1, 0, 0, [X(), V()], 0)) in c.net
  {
    hide Reached, Propose, HandleAppend, Replicate, ReplicateOne, TruthfulAck, Save, SnapshotFor;
    cs, evs, c := FirstReign(m, k);
    Proposes(1, 1, [X()], 2, 1, 3, 1, [2]);
    ShipsBoth();
    cs, evs, c := Go(m, cs, evs, c, k, L1([X()]), Granted(2, 1, 1), Idling(3), Client(1, [2]), L1([X(), V()]));
    AcceptsFirst();
    cs, evs, c := Go(m, cs, evs, c, k, L1([X(), V()]), Granted(2, 1, 1), Idling(3),
        Deliver(Packet(1, 2, Append(1, 0, 0, [X()], 0))), Following(2, 1, 1, [X()]));
  }

  lemma ReachedLast(m: Machine, cs: seq<Cluster>, evs: seq<Event>, c: Cluster, k: nat)
    requires Reached(m, cs, evs, c, k)
    ensures IsRun(m, Group(), cs, evs) && |cs| == |evs| + 1 && cs[|evs|] == c
    ensures forall i {:trigger evs[i]} :: 0 <= i < |evs| ==> Enabled(cs[i], evs[i]) && (Guarded(cs[i], evs[i]) <==> i != k)
  {
  }
}
