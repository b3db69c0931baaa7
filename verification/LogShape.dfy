/**
The shape of the logs, as written, whether or not acknowledgements are truthful.

In every run whose restarts find a clean store: each log numbers its entries
without a gap from the snapshot point on, each Append in flight numbers its
entries without a gap from `prevSeq` on, and each disk holds the node's epoch,
vote, snapshot point and log.

In every run at all: a leader only appends to its log during its epoch.
*/
module LogShape {
  import opened Options
  import opened Quorum
  import opened Cluster
  import opened Turns
  import opened Elections
  import opened Mirror
  import opened Storage
  import opened SimClient
  import opened SimLeader
  import opened SimAppend
  import opened SimSnapshot
  import opened SimRest
  import opened Guards

  /** Sequence numbers `base + 1`, `base + 2`, and so on. */
  predicate NumberedFrom(base: nat, log: seq<Entry>) {
    forall i :: 0 <= i < |log| ==> log[i].seqno == base + 1 + i
  }

  predicate Contiguous(msg: Msg) {
    msg.Append? ==> NumberedFrom(msg.prevSeq, msg.entries)
  }

  predicate HostShape(h: Host) {
    NumberedFrom(h.node.baseSeq, h.node.log) && Synced(h.disk, h.node)
  }

  ghost predicate Shaped(c: Cluster) {
    && (forall id {:trigger HostShape(c.hosts[id])} :: id in c.hosts ==> HostShape(c.hosts[id]))
    && (forall p {:trigger Contiguous(p.msg)} :: p in c.net ==> Contiguous(p.msg))
  }

  /** The only guard: a restart meets no stored entry at or below the snapshot point. */
  predicate CleanRestart(c: Cluster, ev: Event) {
    ev.Crash? ==> ev.id in c.hosts && CleanDisk(c.hosts[ev.id].disk)
  }

  ghost predicate CleanRun(m: Machine, group: seq<Id>, cs: seq<Cluster>, evs: seq<Event>) {
    IsRun(m, group, cs, evs) && forall i {:trigger evs[i]} :: 0 <= i < |evs| ==> CleanRestart(cs[i], evs[i])
  }

  // ---------------------------------------------------------------- reading a contiguous log

  /** `EntryAt` finds the entry that carries the number asked for, and finds one exactly above the snapshot point and up to the end. */
  lemma ReadsByNumber(s: Node, q: nat)
    requires NumberedFrom(s.baseSeq, s.log)
    ensures LastSeq(s) == s.baseSeq + |s.log|
    ensures EntryAt(s, q).Some? <==> s.baseSeq < q <= LastSeq(s)
    ensures EpochAt(s, q).Some? <==> s.baseSeq <= q <= LastSeq(s)
    ensures forall e :: EntryAt(s, q) == Some(e) <==> e in s.log && e.seqno == q
  {
    forall e | e in s.log && e.seqno == q
      ensures EntryAt(s, q) == Some(e)
    {
      var i :| 0 <= i < |s.log| && s.log[i] == e;
      assert q == s.baseSeq + 1 + i;
    }
  }

  // ---------------------------------------------------------------- merging

  /** What a merge changed: nothing, or everything from `from` on and nothing before it. */
  ghost predicate ChangedFrom(base: nat, was: seq<Entry>, g: Merged) {
    match g.from
    case None => g.log == was
    case Some(q) => base < q && q - base - 1 <= |was| && q - base - 1 < |g.log| && was[..q - base - 1] == g.log[..q - base - 1]
  }

  lemma MergeOneShape(base: nat, was: seq<Entry>, acc: Merged, e: Entry)
    requires NumberedFrom(base, acc.log) && ChangedFrom(base, was, acc) && e.seqno <= base + |acc.log| + 1
    requires acc.from.Some? ==> e.seqno > acc.from.value
    ensures var g := MergeOne(base, acc, e);
            && NumberedFrom(base, g.log) && ChangedFrom(base, was, g) && e.seqno <= base + |g.log|
            && (g.from.Some? ==> e.seqno >= g.from.value)
  {
    var g := MergeOne(base, acc, e);
    if g != acc {
      var i := e.seqno - base - 1;
      assert g.log == acc.log[..i] + [e];
      if acc.from.Some? {
        var k := acc.from.value - base - 1;
        assert g.log[..k] == acc.log[..k];
      }
    }
  }

  lemma {:induction false} MergeShape(base: nat, was: seq<Entry>, acc: Merged, entries: seq<Entry>, prev: nat)
    requires NumberedFrom(base, acc.log) && ChangedFrom(base, was, acc)
    requires NumberedFrom(prev, entries) && prev <= base + |acc.log|
    requires acc.from.Some? ==> prev >= acc.from.value
    ensures var g := Merge(base, acc, entries); NumberedFrom(base, g.log) && ChangedFrom(base, was, g)
    decreases |entries|
  {
    hide ChangedFrom, MergeOne;
    if entries != [] {
      MergeOneShape(base, was, acc, entries[0]);
      MergeShape(base, was, MergeOne(base, acc, entries[0]), entries[1..], prev + 1);
    }
  }

  /** The consistency check keeps the received entries from leaving a gap. */
  lemma PrevWithin(s: Node, msg: Msg)
    requires msg.Append? && NumberedFrom(s.baseSeq, s.log) && PrevOK(s, msg)
    ensures msg.prevSeq <= s.baseSeq + |s.log|
  {
  }

  // ---------------------------------------------------------------- what is sent

  lemma ShipsContiguous(s: Node, p: Progress)
    requires NumberedFrom(s.baseSeq, s.log) && p.at > 0
    ensures ReplicateOne(s, p).Send? ==> Contiguous(ReplicateOne(s, p).msg)
  {
    EntriesFromSuffix(s.log, s.baseSeq, p.at);
  }

  ghost predicate AllContiguous(actions: seq<Action>) {
    forall a :: a in actions && a.Send? ==> Contiguous(a.msg)
  }

  lemma {:induction false} ReplicateContiguous(s: Node, next: seq<Progress>)
    requires NumberedFrom(s.baseSeq, s.log) && AllPositive(next)
    ensures AllContiguous(Replicate(s, next))
    decreases |next|
  {
    hide ReplicateOne, Contiguous;
    if next != [] {
      ShipsContiguous(s, next[0]);
      ReplicateContiguous(s, next[1..]);
    }
  }

  lemma AdvanceContiguous(s: Node)
    requires WellFormed(s) && NumberedFrom(s.baseSeq, s.log)
    ensures AllContiguous(AdvanceCommit(s).actions)
  {
    hide Replicate, Contiguous, ApplyRange;
    if s.role.Leader? {
      AdvanceIs(s);
      ApplyRangeShape(s, s.applied, CommitNode(s).commit);
      ReplicateContiguous(CommitNode(s), s.role.next);
    }
  }

  lemma WinContiguous(s: Node)
    requires WellFormed(s) && NumberedFrom(s.baseSeq, s.log)
    ensures AllContiguous(TryWin(s).actions)
  {
    hide Replicate, Contiguous;
    var t := TryWin(s).node;
    if t.role.Leader? && s.role.Candidate? {
      ReplicateContiguous(t, t.role.next);
    }
  }

  // ---------------------------------------------------------------- one turn

  /** A turn leaves a contiguous log, sends contiguous Appends and has the log on disk. */
  ghost predicate KeepsShape(m: Machine, disk: Disk, r: Outcome) {
    && NumberedFrom(r.node.baseSeq, r.node.log)
    && AllContiguous(r.actions)
    && EntriesFrom(Save(m, r.node, disk, r.actions).log, r.node.baseSeq + 1) == r.node.log
  }

  /** A turn that leaves the log alone. */
  lemma QuietShape(m: Machine, s: Node, disk: Disk, r: Outcome)
    requires NumberedFrom(s.baseSeq, s.log) && Synced(disk, s)
    requires r.node.baseSeq == s.baseSeq && r.node.log == s.log && AllContiguous(r.actions)
    requires forall a :: a in r.actions ==> !a.PersistLog?
    ensures KeepsShape(m, disk, r)
  {
    SaveKeepsLog(m, r.node, disk, r.actions);
  }

  /** A turn that changes the log from `q` on. */
  lemma WriteShape(m: Machine, s: Node, disk: Disk, r: Outcome, pre: seq<Action>, q: nat, post: seq<Action>)
    requires NumberedFrom(s.baseSeq, s.log) && Synced(disk, s)
    requires r.node.baseSeq == s.baseSeq && NumberedFrom(s.baseSeq, r.node.log) && AllContiguous(r.actions)
    requires r.actions == pre + [PersistLog(q)] + post
    requires forall a :: a in pre + post ==> !a.PersistLog?
    requires ChangedFrom(s.baseSeq, s.log, Merged(r.node.log, Some(q)))
    ensures KeepsShape(m, disk, r)
  {
    hide Save, EntriesFrom, EntriesBelow, AllContiguous;
    SaveOnce(m, r.node, disk, pre, q, post);
    SaveLogStores(disk, s.baseSeq, s.log, r.node, q);
  }

  lemma TimeoutKeepsShape(m: Machine, s: Node, disk: Disk)
    requires WellFormed(s) && NumberedFrom(s.baseSeq, s.log) && Synced(disk, s)
    ensures KeepsShape(m, disk, TickElection(s))
  {
    hide Replicate, KeepsShape, Synced, Save;
    var r := TickElection(s);
    if !IsLeader(s) {
      TimeoutShape(s);
      var s' := s.(epoch := s.epoch + 1, votedFor := Some(s.me), leader := None, role := Candidate([s.me]));
      WinContiguous(s');
      SendEachShape(Others(s.group, s.me), VoteReq(s'.epoch, LastEpochOf(s), LastSeq(s)));
    }
    QuietShape(m, s, disk, r);
  }

  lemma PulseKeepsShape(m: Machine, s: Node, disk: Disk)
    requires WellFormed(s) && NumberedFrom(s.baseSeq, s.log) && Synced(disk, s)
    ensures KeepsShape(m, disk, Heartbeat(s))
  {
    hide Replicate, KeepsShape, Synced, Save;
    if IsLeader(s) {
      ReplicateShape(s, s.role.next);
      ReplicateContiguous(s, s.role.next);
    }
    QuietShape(m, s, disk, Heartbeat(s));
  }

  lemma ClientKeepsShape(m: Machine, s: Node, disk: Disk, cmd: Command)
    requires WellFormed(s) && NumberedFrom(s.baseSeq, s.log) && Synced(disk, s)
    ensures KeepsShape(m, disk, Propose(s, cmd))
  {
    hide Replicate, KeepsShape, Synced, Save, AdvanceCommit, Contiguous;
    var r := Propose(s, cmd);
    if IsLeader(s) {
      var q := LastSeq(s) + 1;
      ReadsByNumber(s, q);
      var s' := s.(log := s.log + [Entry(s.epoch, q, cmd)]);
      AdvanceCommitShape(s');
      AdvanceContiguous(s');
      ReplicateShape(s', s'.role.next);
      ReplicateContiguous(s', s'.role.next);
      var post := ReplicateAll(s') + AdvanceCommit(s').actions;
      assert r.actions == [] + [PersistLog(q)] + post;
      assert s.log[..|s.log|] == s'.log[..|s.log|];
      WriteShape(m, s, disk, r, [], q, post);
    } else {
      QuietShape(m, s, disk, r);
    }
  }

  lemma AcceptKeepsShape(m: Machine, s: Node, disk: Disk, from: Id, msg: Msg)
    requires NumberedFrom(s.baseSeq, s.log) && Synced(disk, s)
    requires msg.Append? && Contiguous(msg) && msg.epoch >= s.epoch && PrevOK(Follow(s, from, msg.epoch).node, msg)
    ensures KeepsShape(m, disk, HandleAppend(s, from, msg))
  {
    hide Follow, Merge, PrevOK, KeepsShape, HandleAppend, Synced, Save, ApplyRange;
    FollowDiscipline(s, from, msg.epoch);
    AcceptedIs(s, from, msg);
    var f := Follow(s, from, msg.epoch);
    var s2 := Received(f.node, msg);
    var g := Merge(s.baseSeq, Merged(s.log, None), msg.entries);
    PrevWithin(f.node, msg);
    MergeShape(s.baseSeq, s.log, Merged(s.log, None), msg.entries, msg.prevSeq);
    ApplyRangeShape(s2, s2.applied, Min(msg.commit, LastSeq(s2)));
    var r := HandleAppend(s, from, msg);
    var post := Applied(s2, msg) + [Send(from, AppendResp(f.node.epoch, LastSeq(s2), true))];
    if g.from.Some? {
      assert r.actions == f.actions + [PersistLog(g.from.value)] + post;
      WriteShape(m, s, disk, r, f.actions, g.from.value, post);
    } else {
      assert r.actions == f.actions + post;
      QuietShape(m, s, disk, r);
    }
  }

  lemma AppendKeepsShape(m: Machine, s: Node, disk: Disk, from: Id, msg: Msg)
    requires NumberedFrom(s.baseSeq, s.log) && Synced(disk, s) && msg.Append? && Contiguous(msg)
    ensures KeepsShape(m, disk, HandleAppend(s, from, msg))
  {
    hide Follow, Merge, PrevOK, KeepsShape, Synced, Save, ApplyRange;
    var r := HandleAppend(s, from, msg);
    if msg.epoch < s.epoch {
      QuietShape(m, s, disk, r);
    } else if PrevOK(Follow(s, from, msg.epoch).node, msg) {
      AcceptKeepsShape(m, s, disk, from, msg);
    } else {
      FollowDiscipline(s, from, msg.epoch);
      QuietShape(m, s, disk, r);
    }
  }

  lemma InstallKeepsShape(m: Machine, s: Node, disk: Disk, from: Id, msg: Msg)
    requires NumberedFrom(s.baseSeq, s.log) && Synced(disk, s) && msg.InstallSnapshot?
    ensures KeepsShape(m, disk, HandleSnapshot(s, from, msg))
  {
    hide Follow, Save;
    var r := HandleSnapshot(s, from, msg);
    if msg.epoch >= s.epoch && msg.lastSeq > s.applied {
      InstallStored(m, s, disk, from, msg);
      InstallIs(s, from, msg);
      FollowDiscipline(s, from, msg.epoch);
    } else {
      if msg.epoch >= s.epoch {
        FollowDiscipline(s, from, msg.epoch);
      }
      QuietShape(m, s, disk, r);
    }
  }

  lemma AnswerKeepsShape(m: Machine, s: Node, disk: Disk, from: Id, msg: Msg)
    requires WellFormed(s) && NumberedFrom(s.baseSeq, s.log) && Synced(disk, s) && msg.AppendResp?
    ensures KeepsShape(m, disk, HandleAppendResp(s, from, msg))
  {
    hide Replicate, KeepsShape, Synced, Save, AdvanceCommit;
    if msg.epoch == s.epoch && IsLeader(s) {
      if msg.ok {
        RowsPositive(s.role.next, from, msg.matchSeq + 1, 0);
        var s' := s.(role := Leader(SetTo(s.role.next, from, msg.matchSeq + 1), RaiseTo(s.role.matched, from, msg.matchSeq)));
        AdvanceCommitShape(s');
        AdvanceContiguous(s');
      } else {
        RowsPositive(s.role.next, from, msg.matchSeq, s.baseSeq);
        var s' := s.(role := Leader(BackUpRow(s.role.next, from, s.baseSeq, msg.matchSeq), s.role.matched));
        ReplicateShape(s', s'.role.next);
        ReplicateContiguous(s', s'.role.next);
      }
    }
    QuietShape(m, s, disk, HandleAppendResp(s, from, msg));
  }

  lemma VoteKeepsShape(m: Machine, s: Node, disk: Disk, from: Id, msg: Msg)
    requires WellFormed(s) && NumberedFrom(s.baseSeq, s.log) && Synced(disk, s) && (msg.VoteReq? || msg.VoteResp?)
    ensures KeepsShape(m, disk, Handle(s, from, msg))
  {
    hide Replicate, KeepsShape, Synced, Save, TryWin;
    if msg.VoteResp? && msg.epoch == s.epoch && msg.granted {
      var s' := if s.role.Candidate? && from !in s.role.votes then s.(role := Candidate(s.role.votes + [from])) else s;
      TryWinDiscipline(s');
      WinContiguous(s');
    }
    QuietShape(m, s, disk, Handle(s, from, msg));
  }

  lemma TurnKeepsShape(m: Machine, s: Node, disk: Disk, ev: Event)
    requires WellFormed(s) && NumberedFrom(s.baseSeq, s.log) && Synced(disk, s) && !ev.Shrink? && !ev.Crash?
    requires ev.Deliver? ==> Contiguous(ev.packet.msg)
    ensures KeepsShape(m, disk, Turn(s, ev))
    ensures var r := Turn(s, ev); Synced(Save(m, r.node, disk, r.actions), r.node)
  {
    hide KeepsShape, TickElection, Propose, HandleVoteReq, HandleVoteResp, HandleAppend, HandleAppendResp, HandleSnapshot,
      Save, NumberedFrom;
    match ev {
      case Timeout(_) => TimeoutKeepsShape(m, s, disk);
      case Pulse(_) => PulseKeepsShape(m, s, disk);
      case Client(_, cmd) => ClientKeepsShape(m, s, disk, cmd);
      case Deliver(p) =>
        match p.msg {
          case VoteReq(_, _, _) => VoteKeepsShape(m, s, disk, p.src, p.msg);
          case VoteResp(_, _) => VoteKeepsShape(m, s, disk, p.src, p.msg);
          case Append(_, _, _, _, _) => AppendKeepsShape(m, s, disk, p.src, p.msg);
          case AppendResp(_, _, _) => AnswerKeepsShape(m, s, disk, p.src, p.msg);
          case InstallSnapshot(_, _, _, _) => InstallKeepsShape(m, s, disk, p.src, p.msg);
        }
    }
    TurnStoresMeta(m, s, disk, ev);
    ShapeStored(m, disk, Turn(s, ev));
  }

  lemma ShapeStored(m: Machine, disk: Disk, r: Outcome)
    requires KeepsShape(m, disk, r)
    ensures EntriesFrom(Save(m, r.node, disk, r.actions).log, r.node.baseSeq + 1) == r.node.log
  {
  }

  lemma TurnStoresMeta(m: Machine, s: Node, disk: Disk, ev: Event)
    requires WellFormed(s) && SameMeta(disk, s) && !ev.Shrink? && !ev.Crash?
    ensures var r := Turn(s, ev); SameMeta(Save(m, r.node, disk, r.actions), r.node)
  {
    hide Turn, Save;
    var r := Turn(s, ev);
    TurnDiscipline(s, ev);
    TurnBase(s, ev);
    SaveMetaEffect(m, r.node, disk, r.actions);
  }

  // ---------------------------------------------------------------- compaction and restart

  lemma CompactNumbered(s: Node, keepTail: nat)
    requires NumberedFrom(s.baseSeq, s.log)
    ensures var t := Compact(s, keepTail);
            && s.baseSeq <= t.baseSeq && NumberedFrom(t.baseSeq, t.log)
            && t.log == EntriesFrom(s.log, t.baseSeq + 1)
            && t.epoch == s.epoch && t.votedFor == s.votedFor
  {
    EntriesFromSuffix(s.log, s.baseSeq, Compact(s, keepTail).baseSeq + 1);
  }

  lemma ShrinkKeepsShape(h: Host, keepTail: nat)
    requires HostShape(h)
    ensures HostShape(ShrinkHost(h, keepTail))
  {
    hide Compact, EntriesFrom, NumberedFrom;
    var s, t := h.node, Compact(h.node, keepTail);
    CompactNumbered(s, keepTail);
    FromFrom(h.disk.log, t.baseSeq + 1, t.baseSeq + 1);
    FromFrom(h.disk.log, s.baseSeq + 1, t.baseSeq + 1);
  }

  lemma RestartKeepsShape(h: Host, group: seq<Id>)
    requires HostShape(h) && CleanDisk(h.disk)
    ensures HostShape(RestartHost(h, group))
  {
    RestartLog(h.disk, h.node);
  }

  // ---------------------------------------------------------------- whole runs

  lemma StepKeepsShape(m: Machine, group: seq<Id>, c: Cluster, ev: Event, c': Cluster)
    requires Shaped(c) && Step(m, group, c, ev, c') && CleanRestart(c, ev)
    ensures Shaped(c')
  {
    hide HostShape, Contiguous, Turn, Save, Sends, CleanDisk, ShrinkHost, RestartHost;
    var id := Actor(ev);
    var h := c.hosts[id];
    assert HostShape(h);
    if ev.Shrink? {
      ShrinkKeepsShape(h, ev.keepTail);
    } else if ev.Crash? {
      RestartKeepsShape(h, group);
    } else {
      TurnLandsShaped(m, c, ev);
    }
    forall x | x in c'.hosts
      ensures HostShape(c'.hosts[x])
    {
      if x != id {
        assert HostShape(c.hosts[x]);
      }
    }
  }

  lemma TurnLandsShaped(m: Machine, c: Cluster, ev: Event)
    requires Shaped(c) && Enabled(c, ev) && AllWellFormed(c) && !ev.Shrink? && !ev.Crash?
    ensures var h := c.hosts[Actor(ev)];
            var r := Turn(h.node, ev);
            && HostShape(Host(r.node, Save(m, r.node, h.disk, r.actions)))
            && forall p {:trigger Contiguous(p.msg)} :: p in Sends(m, r.node, h.disk, r.actions) ==> Contiguous(p.msg)
  {
    hide Turn, Save, Sends, Contiguous, Synced;
    var h := c.hosts[Actor(ev)];
    assert HostShape(h);
    if ev.Deliver? {
      assert Contiguous(ev.packet.msg);
    }
    TurnKeepsShape(m, h.node, h.disk, ev);
    var r := Turn(h.node, ev);
    forall p | p in Sends(m, r.node, h.disk, r.actions)
      ensures Contiguous(p.msg)
    {
      SendsAskedFor(m, r.node, h.disk, r.actions, p);
      NotAppend(p.msg);
    }
  }

  lemma NotAppend(msg: Msg)
    ensures !msg.Append? ==> Contiguous(msg)
  {
  }

  /** The shape of the logs, over every run with clean restarts and no other guard. */
  lemma {:induction false} RunShape(m: Machine, group: seq<Id>, cs: seq<Cluster>, evs: seq<Event>)
    requires CleanRun(m, group, cs, evs)
    ensures Shaped(cs[|evs|])
    decreases |evs|
  {
    hide Step, CleanRestart, Shaped;
    if evs == [] {
      InitShaped(m, group);
    } else {
      var n := |evs| - 1;
      RunPrefix(m, group, cs, evs);
      forall i | 0 <= i < n
        ensures CleanRestart(cs[..n + 1][i], evs[..n][i])
      {
        assert CleanRestart(cs[i], evs[i]);
      }
      RunShape(m, group, cs[..n + 1], evs[..n]);
      StepKeepsShape(m, group, cs[n], evs[n], cs[n + 1]);
    }
  }

  lemma InitShaped(m: Machine, group: seq<Id>)
    ensures Shaped(Init(m, group))
  {
  }

  // ---------------------------------------------------------------- a leader's log

  /** Within one epoch a node passes from candidate to leader to follower and never back. */
  function Rank(s: Node): nat {
    match s.role
    case Candidate(_) => 0
    case Leader(_, _) => 1
    case Follower => 2
  }

  /** What one node may become: a later epoch, or the same epoch at the same or a later rank. */
  predicate Ages(s: Node, t: Node) {
    s.epoch < t.epoch || (s.epoch == t.epoch && Rank(s) <= Rank(t))
  }

  /** A leader that stays leader of its epoch keeps every entry above its snapshot point. */
  ghost predicate KeepsEntries(s: Node, t: Node) {
    IsLeader(s) && IsLeader(t) && s.epoch == t.epoch ==>
      s.baseSeq <= t.baseSeq && forall q :: q > t.baseSeq && EntryAt(s, q).Some? ==> EntryAt(t, q) == EntryAt(s, q)
  }

  lemma AgesTwice(s: Node, t: Node, u: Node)
    requires Ages(s, t) && Ages(t, u) && KeepsEntries(s, t) && KeepsEntries(t, u)
    ensures Ages(s, u) && KeepsEntries(s, u)
  {
    if IsLeader(s) && IsLeader(u) && s.epoch == u.epoch {
      assert IsLeader(t) && t.epoch == s.epoch;
      forall q: nat | q > u.baseSeq && EntryAt(s, q).Some?
        ensures EntryAt(u, q) == EntryAt(s, q)
      {
        assert EntryAt(t, q) == EntryAt(s, q);
      }
    }
  }

  lemma TurnAges(s: Node, ev: Event)
    requires WellFormed(s) && !ev.Shrink? && !ev.Crash?
    ensures Ages(s, Turn(s, ev).node) && KeepsEntries(s, Turn(s, ev).node)
  {
    hide Replicate, AdvanceCommit, TryWin, Follow, PrevOK, Merge, ApplyRange;
    match ev {
      case Timeout(_) =>
        if !IsLeader(s) {
          TimeoutShape(s);
        }
      case Pulse(_) =>
      case Client(_, cmd) =>
        if IsLeader(s) {
          AdvanceCommitShape(s.(log := s.log + [Entry(s.epoch, LastSeq(s) + 1, cmd)]));
        }
      case Deliver(p) =>
        DeliveryAges(s, p.src, p.msg);
    }
  }

  lemma DeliveryAges(s: Node, from: Id, msg: Msg)
    requires WellFormed(s)
    ensures Ages(s, Handle(s, from, msg).node) && KeepsEntries(s, Handle(s, from, msg).node)
  {
    hide Replicate, AdvanceCommit, TryWin, Follow, PrevOK, Merge, ApplyRange;
    match msg {
      case VoteReq(_, _, _) =>
      case VoteResp(_, _) =>
        if msg.epoch == s.epoch && msg.granted {
          var s' := if s.role.Candidate? && from !in s.role.votes then s.(role := Candidate(s.role.votes + [from])) else s;
          TryWinDiscipline(s');
          WinRank(s');
        }
      case Append(_, _, _, _, _) =>
        if msg.epoch >= s.epoch {
          FollowDiscipline(s, from, msg.epoch);
          AppendShape(s, from, msg);
        }
      case AppendResp(_, _, _) =>
        if msg.epoch == s.epoch && IsLeader(s) && msg.ok {
          RowsPositive(s.role.next, from, msg.matchSeq + 1, 0);
          AdvanceCommitShape(s.(role := Leader(SetTo(s.role.next, from, msg.matchSeq + 1),
              RaiseTo(s.role.matched, from, msg.matchSeq))));
        }
      case InstallSnapshot(_, _, _, _) =>
        if msg.epoch >= s.epoch {
          FollowDiscipline(s, from, msg.epoch);
        }
    }
  }

  lemma WinRank(s: Node)
    requires WellFormed(s)
    ensures Rank(s) <= Rank(TryWin(s).node)
  {
  }

  lemma StepAges(m: Machine, group: seq<Id>, c: Cluster, ev: Event, c': Cluster, id: Id, l: Ledger)
    requires VotesInv(group, c, l) && Step(m, group, c, ev, c') && id in c.hosts
    ensures id in c'.hosts && Ages(c.hosts[id].node, c'.hosts[id].node) && KeepsEntries(c.hosts[id].node, c'.hosts[id].node)
  {
    hide Turn, Save, Sends, Ages, KeepsEntries, Compact;
    assert HostVotes(l, group, id, c.hosts[id]);
    var s := c.hosts[id].node;
    SameAges(s);
    if id == Actor(ev) {
      if ev.Shrink? {
        CompactAges(s, ev.keepTail);
      } else if ev.Crash? {
        RestartAges(c.hosts[id], group);
      } else {
        TurnAges(s, ev);
      }
    }
  }

  lemma SameAges(s: Node)
    ensures Ages(s, s) && KeepsEntries(s, s)
  {
  }

  lemma CompactAges(s: Node, keepTail: nat)
    ensures Ages(s, Compact(s, keepTail)) && KeepsEntries(s, Compact(s, keepTail))
  {
  }

  lemma RestartAges(h: Host, group: seq<Id>)
    requires SameMeta(h.disk, h.node)
    ensures Ages(h.node, RestartHost(h, group).node) && KeepsEntries(h.node, RestartHost(h, group).node)
  {
  }

  lemma {:induction false} RunAges(m: Machine, group: seq<Id>, cs: seq<Cluster>, evs: seq<Event>, i: nat, id: Id)
    requires IsRun(m, group, cs, evs) && i <= |evs| && id in cs[i].hosts
    ensures id in cs[|evs|].hosts
    ensures Ages(cs[i].hosts[id].node, cs[|evs|].hosts[id].node) && KeepsEntries(cs[i].hosts[id].node, cs[|evs|].hosts[id].node)
    decreases |evs|
  {
    hide Step, Ages, KeepsEntries, VotesInv;
    if i == |evs| {
      SameAges(cs[i].hosts[id].node);
    } else {
      var n := |evs| - 1;
      RunPrefix(m, group, cs, evs);
      RunAges(m, group, cs[..n + 1], evs[..n], i, id);
      var l := RunVotes(m, group, cs[..n + 1], evs[..n]);
      StepAges(m, group, cs[n], evs[n], cs[n + 1], id, l);
      AgesTwice(cs[i].hosts[id].node, cs[n].hosts[id].node, cs[n + 1].hosts[id].node);
    }
  }

  /** A leader's log only grows during its epoch, in every run: what it once held it still holds, unless compacted. */
  lemma LeaderAppendOnly(m: Machine, group: seq<Id>, cs: seq<Cluster>, evs: seq<Event>, i: nat, id: Id, q: nat)
    requires IsRun(m, group, cs, evs) && i <= |evs| && id in cs[i].hosts && id in cs[|evs|].hosts
    requires var s, t := cs[i].hosts[id].node, cs[|evs|].hosts[id].node;
             IsLeader(s) && IsLeader(t) && s.epoch == t.epoch && EntryAt(s, q).Some? && q > t.baseSeq
    ensures EntryAt(cs[|evs|].hosts[id].node, q) == EntryAt(cs[i].hosts[id].node, q)
  {
    hide IsRun;
    RunAges(m, group, cs, evs, i, id);
  }
}
