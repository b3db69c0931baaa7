/** Heartbeats, proposals and acknowledgements keep the simulation. */
module SimLeader {
  import opened Options
  import opened Quorum
  import opened Collections
  import opened Groups
  import opened Cluster
  import opened Turns
  import opened Protocol
  import opened ProtocolSteps
  import opened Mirror
  import opened Storage
  import opened Simulation
  import opened SimMoves
  import opened SimElections

  lemma HostLeads(strict: bool, m: Machine, group: seq<Id>, w: World, id: Id, h: Host)
    requires Here(strict, m, group, w, id, h) && IsLeader(h.node)
    ensures LeadsIn(strict, w, h.node)
  {
    hide Inv, CommittedPrefix, Sort;
    SortedGroup(group);
  }

  lemma PulseStep(strict: bool, m: Machine, group: seq<Id>, w: World, id: Id, h: Host)
    requires Here(strict, m, group, w, id, h)
    ensures Answers(strict, m, group, w, w, id, h, Heartbeat(h.node))
  {
    hide Inv, CommitInv, Grows, Save, Replicate, Mirrors, RowsOK, Settled, VoteBacked;
    if IsLeader(h.node) {
      HostLeads(strict, m, group, w, id, h);
      MovedNot(strict, w, id);
      ReplicateAllOK(strict, m, w, h.node);
      ReplicateShape(h.node, h.node.role.next);
      QuietTurn(strict, m, group, w, w, id, h, Heartbeat(h.node));
    } else {
      NothingStep(strict, m, group, w, id, h);
    }
  }

  // ---------------------------------------------------------------- the commit rule

  lemma {:induction false} CountAntitone(matched: seq<Progress>, a: nat, b: nat)
    requires a <= b
    ensures CountReached(matched, a) >= CountReached(matched, b)
  {
    if matched != [] {
      CountAntitone(matched[1..], a, b);
    }
  }

  predicate Current(s: Node, q: nat) {
    EntryAt(s, q).Some? && EntryAt(s, q).value.epoch == s.epoch
  }

  /** The scan finds the highest entry of the leader's epoch that a majority holds, if there is one above the commit mark. */
  lemma {:induction false} ScanCommitMeaning(s: Node, n: nat, candidate: nat)
    requires s.role.Leader? && candidate < n
    ensures var r := ScanCommit(s, n, candidate);
            && candidate <= r
            && (r != candidate ==> n <= r <= LastSeq(s) && Replicas(s.role.matched, r) >= MajorityOf(s) && Current(s, r))
            && (forall q :: n <= q <= LastSeq(s) && Replicas(s.role.matched, q) >= MajorityOf(s) && Current(s, q) ==> q <= r)
    decreases LastSeq(s) + 1 - n
  {
    if n > LastSeq(s) {
    } else if Replicas(s.role.matched, n) < MajorityOf(s) {
      forall q | n <= q <= LastSeq(s)
        ensures Replicas(s.role.matched, q) < MajorityOf(s)
      {
        CountAntitone(s.role.matched, n, q);
      }
    } else {
      ScanCommitMeaning(s, n + 1, if Current(s, n) then n else candidate);
    }
  }

  /** The peers a leader has seen reach `n`. */
  function Reached(matched: seq<Progress>, n: nat): set<Id> {
    if matched == [] then {}
    else (if matched[0].at >= n then {matched[0].id} else {}) + Reached(matched[1..], n)
  }

  lemma {:induction false} ReachedCounts(matched: seq<Progress>, peers: seq<Id>, n: nat)
    requires RowsFor(matched, peers) && NoRepeats(peers)
    ensures |Reached(matched, n)| == CountReached(matched, n)
    ensures forall x :: x in Reached(matched, n) ==> exists i :: 0 <= i < |matched| && matched[i].id == x && matched[i].at >= n
  {
    if matched != [] {
      ReachedCounts(matched[1..], peers[1..], n);
      forall x | x in Reached(matched[1..], n)
        ensures x != peers[0]
        ensures exists i :: 0 <= i < |matched| && matched[i].id == x && matched[i].at >= n
      {
        var i :| 0 <= i < |matched[1..]| && matched[1..][i].id == x && matched[1..][i].at >= n;
        assert matched[i + 1].id == x && peers[i + 1] == x;
      }
    }
  }

  /** Copies a leader counts are members that acknowledged. */
  lemma ReplicasAcked(group: seq<Id>, w: World, s: Node, q: nat)
    requires Inv(w) && GroupOK(group, w) && s.group == Sort(group)
    requires LeadsIn(true, w, s) && RowsOK(w.h, s, w.members[s.me].log)
    requires 0 < q <= |w.members[s.me].log| && w.members[s.me].log[q - 1].epoch == s.epoch
    requires Replicas(s.role.matched, q) >= MajorityOf(s)
    ensures Committed(w, s.epoch, q)
  {
    hide Inv, CommittedPrefix, Ackers, GroupOK, Sort, Others;
    LeadingMember(w, s.me);
    OwnAck(w, s.me, q);
    var reached := PeersAcked(group, w, s, q);
    assert |reached + {s.me}| == |reached| + 1;
    SubsetSize(reached + {s.me}, Ackers(w, s.epoch, q));
    SortedGroup(group);
    GroupSize(w, group);
  }

  /** The peers counted acknowledged, and the leader is none of them. */
  lemma PeersAcked(group: seq<Id>, w: World, s: Node, q: nat) returns (reached: set<Id>)
    requires GroupOK(group, w) && s.group == Sort(group) && q > 0
    requires LeadsIn(true, w, s) && RowsOK(w.h, s, w.members[s.me].log)
    ensures |reached| == CountReached(s.role.matched, q) && s.me !in reached && reached <= Ackers(w, s.epoch, q)
  {
    hide CommittedPrefix, Sort;
    SortedGroup(group);
    OthersDistinct(s.group, s.me);
    var peers := Others(s.group, s.me);
    ReachedCounts(s.role.matched, peers, q);
    reached := Reached(s.role.matched, q);
    forall x | x in reached
      ensures x in Ackers(w, s.epoch, q) && x != s.me
    {
      var i :| 0 <= i < |s.role.matched| && s.role.matched[i].id == x && s.role.matched[i].at >= q;
      assert peers[i] == x;
      assert x in peers;
    }
  }

  /** A leader acknowledged every entry of its own reign. */
  lemma OwnAck(w: World, n: Id, q: nat)
    requires Inv(w) && n in w.members && w.members[n].standing.Leading?
    requires 0 < q <= |w.members[n].log| && w.members[n].log[q - 1].epoch == w.members[n].epoch
    ensures n in Ackers(w, w.members[n].epoch, q)
  {
    var s := w.members[n];
    LeadingMember(w, n);
    var r := w.h.reigns[s.epoch];
    assert ReignOK(w, s.epoch, r);
  }

  lemma SetCommitMove(strict: bool, w: World, n: Id, c: nat)
    requires Ready(strict, w, n)
    requires strict ==> CommittedPrefix(w, w.members[n].epoch, w.members[n].log, c)
    ensures Moved(strict, w, SetCommit(w, n, c), n)
  {
    SetCommitKeeps(w, n, c);
    var w' := SetCommit(w, n, c);
    if strict {
      var s := w.members[n];
      CommittedPrefixGrows(w, w', s.epoch, s.epoch, s.log, s.log, c);
      CommitStep(w, w', n);
    }
  }

  /** The node after the commit scan. */
  function CommitNode(s: Node): Node
    requires s.role.Leader?
  {
    var point := ScanCommit(s, s.commit + 1, s.commit);
    s.(commit := point, applied := Max(s.applied, point))
  }

  lemma AdvanceIs(s: Node)
    requires WellFormed(s) && s.role.Leader?
    ensures var t := CommitNode(s);
            AdvanceCommit(s) == Outcome(t, ApplyRange(s, s.applied, t.commit) + if t.commit > s.commit then ReplicateAll(t) else [])
    ensures WellFormed(CommitNode(s))
  {
    ApplyRangeSame(s, s.(commit := CommitNode(s).commit), s.applied, CommitNode(s).commit);
  }

  lemma ApplyRangeSame(s: Node, s': Node, lo: nat, hi: nat)
    requires s.log == s'.log && s.baseSeq == s'.baseSeq
    ensures ApplyRange(s, lo, hi) == ApplyRange(s', lo, hi)
    decreases hi - lo
  {
    if lo < hi {
      ApplyRangeSame(s, s', lo + 1, hi);
    }
  }

  /** The scan's result is committed in the protocol. */
  lemma CommitPointOK(group: seq<Id>, w: World, s: Node)
    requires Inv(w) && CommitInv(w) && GroupOK(group, w) && s.group == Sort(group)
    requires LeadsIn(true, w, s) && RowsOK(w.h, s, w.members[s.me].log)
    ensures CommittedPrefix(w, s.epoch, w.members[s.me].log, CommitNode(s).commit)
    ensures Settled(CommitNode(s))
  {
    hide Inv, CommitInv, CommittedPrefix, RowsOK, GroupOK, Sort;
    var log := w.members[s.me].log;
    var point := CommitNode(s).commit;
    ReadMember(w, s.me, s);
    ScanCommitMeaning(s, s.commit + 1, s.commit);
    if point > s.commit {
      ReadAt(s, log, point);
      ReplicasAcked(group, w, s, point);
      LeadingMember(w, s.me);
      CommittedIsPrefix(w, s.me, point);
    }
    forall q | point < q <= LastSeq(s) && Replicas(s.role.matched, q) >= MajorityOf(s)
      ensures !Current(s, q)
    {
    }
    SettledSame(s, point);
  }

  lemma SettledSame(s: Node, point: nat)
    requires s.role.Leader? && point == CommitNode(s).commit
    requires forall q :: point < q <= LastSeq(s) && Replicas(s.role.matched, q) >= MajorityOf(s) ==> !Current(s, q)
    ensures Settled(CommitNode(s))
  {
    var t := CommitNode(s);
    forall q | t.commit < q <= LastSeq(t) && Replicas(t.role.matched, q) >= MajorityOf(t)
      ensures !(EntryAt(t, q).Some? && EntryAt(t, q).value.epoch == t.epoch)
    {
      assert EntryAt(t, q) == EntryAt(s, q);
      assert !Current(s, q);
    }
  }

  lemma CommittedIsPrefix(w: World, n: Id, q: nat)
    requires n in w.members && LeadsReign(w, n) && Committed(w, w.members[n].epoch, q)
    ensures CommittedPrefix(w, w.members[n].epoch, w.members[n].log, q)
  {
    assert CommitWitness(w, w.members[n].epoch, w.members[n].log, q, w.members[n].epoch, q);
  }

  // ---------------------------------------------------------------- advancing the commit mark

  /** A leader about to scan: its bookkeeping is truthful and its database stands at the commit mark. */
  ghost predicate CanAdvance(strict: bool, group: seq<Id>, w: World, s: Node) {
    && Ready(strict, w, s.me) && GroupOK(group, w) && s.group == Sort(group)
    && LeadsIn(strict, w, s)
    && (strict ==> RowsOK(w.h, s, w.members[s.me].log) && s.baseSeq <= s.applied == s.commit)
  }

  lemma AdvanceMove(strict: bool, group: seq<Id>, w: World, s: Node)
    requires CanAdvance(strict, group, w, s)
    ensures var w', t := SetCommit(w, s.me, CommitNode(s).commit), CommitNode(s);
            && Moved(strict, w, w', s.me) && LeadsIn(strict, w', t)
            && (strict ==> RowsOK(w'.h, t, w'.members[s.me].log) && Settled(t))
  {
    hide Inv, CommitInv, CommittedPrefix, Grows, Sort, Settled;
    AdvanceIs(s);
    if strict {
      CommitPointOK(group, w, s);
    }
    SetCommitMove(strict, w, s.me, CommitNode(s).commit);
    var w' := SetCommit(w, s.me, CommitNode(s).commit);
    if strict {
      LaterCommit(w, w', s.me);
    }
  }

  lemma LaterCommit(w: World, w': World, n: Id)
    requires CommitInv(w') && n in w'.members
    ensures CommittedPrefix(w', w'.members[n].epoch, w'.members[n].log, w'.members[n].commit)
  {
  }

  lemma AdvanceSends(strict: bool, m: Machine, group: seq<Id>, w: World, s: Node)
    requires CanAdvance(strict, group, w, s)
    ensures SendsOK(strict, m, SetCommit(w, s.me, CommitNode(s).commit), s.me, AdvanceCommit(s).actions)
  {
    hide Inv, CommitInv, Grows, CommittedPrefix, Sort, Replicate, LeadsIn, MsgOK, ApplyRange;
    AdvanceMove(strict, group, w, s);
    LeaderShape(strict, w, s);
    AdvanceIs(s);
    var w', t := SetCommit(w, s.me, CommitNode(s).commit), CommitNode(s);
    ReplicateAllOK(strict, m, w', t);
    ApplyRangeShape(s, s.applied, t.commit);
    ApplySends(strict, m, w', s.me, ApplyRange(s, s.applied, t.commit));
    ApplySends(strict, m, w', s.me, []);
    SendsConcat(strict, m, w', s.me, ApplyRange(s, s.applied, t.commit),
        if t.commit > s.commit then ReplicateAll(t) else []);
  }

  lemma LeaderShape(strict: bool, w: World, s: Node)
    requires LeadsIn(strict, w, s)
    ensures s.me in w.members && s.role.Leader? && WellFormed(s) && Mirrors(s, w.members[s.me])
  {
  }

  lemma ApplySends(strict: bool, m: Machine, w: World, id: Id, actions: seq<Action>)
    requires forall a :: a in actions ==> !a.Send? && !a.NeedSnapshot?
    ensures SendsOK(strict, m, w, id, actions)
  {
  }

  lemma AdvancePaced(m: Machine, group: seq<Id>, w: World, s: Node)
    requires CanAdvance(true, group, w, s)
    ensures var t := CommitNode(s);
            && s.applied <= t.commit == t.applied <= |w.members[s.me].log|
            && Paced(m, w.members[s.me].log, t.applied, AdvanceCommit(s).actions, s.applied, t.applied)
  {
    hide Inv, CommitInv, Grows, Sort, Replicate, ApplyRange, Settled, RowsOK;
    var log := w.members[s.me].log;
    var t := CommitNode(s);
    AdvanceMove(true, group, w, s);
    AdvanceIs(s);
    ScanCommitMeaning(s, s.commit + 1, s.commit);
    LaterCommit(SetCommit(w, s.me, t.commit), SetCommit(w, s.me, t.commit), s.me);
    ReadMember(w, s.me, s);
    ApplyRangePaced(m, s, log, t.applied, s.applied, t.commit);
    if t.commit > s.commit {
      ReplicateShape(t, t.role.next);
      IdlePaced(m, log, t.applied, ReplicateAll(t), t.applied);
    }
    PacedConcat(m, log, t.applied, ApplyRange(s, s.applied, t.commit), if t.commit > s.commit then ReplicateAll(t) else [],
                s.applied, t.applied, t.applied);
  }

  // ---------------------------------------------------------------- acknowledgements

  lemma {:induction false} RowsKeepIds(ps: seq<Progress>, peers: seq<Id>, id: Id, at: nat, base: nat)
    requires RowsFor(ps, peers)
    ensures RowsFor(SetTo(ps, id, at), peers) && RowsFor(RaiseTo(ps, id, at), peers)
    ensures RowsFor(BackUpRow(ps, id, base, at), peers)
  {
    if ps != [] && ps[0].id != id {
      RowsKeepIds(ps[1..], peers[1..], id, at, base);
    }
  }

  lemma {:induction false} RowsBounded(ps: seq<Progress>, id: Id, at: nat, base: nat, last: nat)
    requires forall i :: 0 <= i < |ps| ==> ps[i].at <= last + 1
    requires base <= last
    ensures at <= last + 1 ==> forall i :: 0 <= i < |SetTo(ps, id, at)| ==> SetTo(ps, id, at)[i].at <= last + 1
    ensures forall i :: 0 <= i < |BackUpRow(ps, id, base, at)| ==> BackUpRow(ps, id, base, at)[i].at <= last + 1
  {
    if ps != [] && ps[0].id != id {
      RowsBounded(ps[1..], id, at, base, last);
    }
  }

  lemma {:induction false} RaisedAcked(h: History, ps: seq<Progress>, e: nat, id: Id, at: nat)
    requires forall i :: 0 <= i < |ps| ==> AckedUpTo(h, ps[i].id, e, ps[i].at)
    requires AckedUpTo(h, id, e, at)
    ensures forall i :: 0 <= i < |RaiseTo(ps, id, at)| ==> AckedUpTo(h, RaiseTo(ps, id, at)[i].id, e, RaiseTo(ps, id, at)[i].at)
  {
    if ps != [] && ps[0].id != id {
      RaisedAcked(h, ps[1..], e, id, at);
    }
  }

  function Credited(s: Node, from: Id, at: nat): Node
    requires s.role.Leader?
  {
    s.(role := Leader(SetTo(s.role.next, from, at + 1), RaiseTo(s.role.matched, from, at)))
  }

  lemma CreditOK(strict: bool, m: Machine, group: seq<Id>, w: World, id: Id, h: Host, from: Id, at: nat)
    requires Here(strict, m, group, w, id, h) && IsLeader(h.node)
    requires MsgOK(strict, m, w, from, id, AppendResp(h.node.epoch, at, true))
    ensures CanAdvance(strict, group, w, Credited(h.node, from, at))
  {
    hide Inv, CommitInv, CommittedPrefix, Sort, Settled, FileOK;
    var s := h.node;
    var full := w.members[id].log;
    HostLeads(strict, m, group, w, id, h);
    RowsPositive(s.role.next, from, at + 1, 0);
    RowsKeepIds(s.role.next, Others(s.group, s.me), from, at + 1, 0);
    RowsKeepIds(s.role.matched, Others(s.group, s.me), from, at, 0);
    if strict {
      LeadingMember(w, id);
      AckBounded(w, from, s.epoch, at);
      RowsBounded(s.role.next, from, at + 1, 0, |full|);
      RaisedAcked(w.h, s.role.matched, s.epoch, from, at);
    }
  }

  lemma AckBounded(w: World, n: Id, e: nat, at: nat)
    requires Inv(w) && e in w.h.reigns && AckedUpTo(w.h, n, e, at)
    ensures at <= |w.h.reigns[e].log|
  {
    if at > 0 {
      assert AckOK(w, Ballot(n, e), w.h.acks[Ballot(n, e)]);
    }
  }

  lemma AckStep(strict: bool, m: Machine, group: seq<Id>, w: World, id: Id, h: Host, from: Id, at: nat)
    returns (w': World)
    requires Here(strict, m, group, w, id, h) && IsLeader(h.node)
    requires MsgOK(strict, m, w, from, id, AppendResp(h.node.epoch, at, true))
    requires WellFormed(Credited(h.node, from, at))
    ensures Answers(strict, m, group, w, w', id, h, AdvanceCommit(Credited(h.node, from, at)))
  {
    hide Inv, CommitInv, CommittedPrefix, Grows, Sort, Settled, RowsOK, Paced, SendsOK, AdvanceCommit, Save, Sends, GroupOK;
    var s1 := Credited(h.node, from, at);
    CreditOK(strict, m, group, w, id, h, from, at);
    w' := SetCommit(w, id, CommitNode(s1).commit);
    AdvanceMove(strict, group, w, s1);
    AdvanceSends(strict, m, group, w, s1);
    AdvanceSaved(m, s1, h.disk);
    AdvanceIsNode(s1);
    if strict {
      AdvancePaced(m, group, w, s1);
    }
  }

  lemma AdvanceIsNode(s: Node)
    requires WellFormed(s) && s.role.Leader?
    ensures AdvanceCommit(s).node == CommitNode(s) && WellFormed(CommitNode(s))
  {
    AdvanceIs(s);
  }

  lemma AdvanceSaved(m: Machine, s: Node, disk: Disk)
    requires WellFormed(s) && s.role.Leader? && Synced(disk, s)
    ensures Synced(Save(m, AdvanceCommit(s).node, disk, AdvanceCommit(s).actions), AdvanceCommit(s).node)
  {
    var r := AdvanceCommit(s);
    AdvanceCommitShape(s);
    SaveKeepsLog(m, r.node, disk, r.actions);
    SaveMetaEffect(m, r.node, disk, r.actions);
  }

  lemma NackStep(strict: bool, m: Machine, group: seq<Id>, w: World, id: Id, h: Host, from: Id, hint: nat)
    requires Here(strict, m, group, w, id, h) && IsLeader(h.node)
    requires var s' := h.node.(role := Leader(BackUpRow(h.node.role.next, from, h.node.baseSeq, hint), h.node.role.matched));
             WellFormed(s')
    ensures var s' := h.node.(role := Leader(BackUpRow(h.node.role.next, from, h.node.baseSeq, hint), h.node.role.matched));
            Answers(strict, m, group, w, w, id, h, Outcome(s', ReplicateAll(s')))
  {
    hide Inv, CommitInv, Grows, Save, Sort, Replicate, CommittedPrefix;
    var s := h.node;
    var s' := s.(role := Leader(BackUpRow(s.role.next, from, s.baseSeq, hint), s.role.matched));
    HostLeads(strict, m, group, w, id, h);
    RowsKeepIds(s.role.next, Others(s.group, s.me), from, hint, s.baseSeq);
    if strict {
      RowsBounded(s.role.next, from, hint, s.baseSeq, |w.members[id].log|);
    }
    MovedNot(strict, w, id);
    ReplicateAllOK(strict, m, w, s');
    ReplicateShape(s', s'.role.next);
    SettledRows(s, s');
    QuietTurn(strict, m, group, w, w, id, h, Outcome(s', ReplicateAll(s')));
  }

  lemma SettledRows(s: Node, s': Node)
    requires s.role.Leader? && s'.role.Leader? && s' == s.(role := s'.role) && s'.role.matched == s.role.matched
    ensures Settled(s) ==> Settled(s')
  {
    if Settled(s) {
      forall q | s'.commit < q <= LastSeq(s') && Replicas(s'.role.matched, q) >= MajorityOf(s')
        ensures !(EntryAt(s', q).Some? && EntryAt(s', q).value.epoch == s'.epoch)
      {
        assert EntryAt(s', q) == EntryAt(s, q);
      }
    }
  }

  lemma AppendRespStep(strict: bool, m: Machine, group: seq<Id>, w: World, id: Id, h: Host, from: Id, msg: Msg)
    returns (w': World)
    requires Here(strict, m, group, w, id, h)
    requires msg.AppendResp? && from in w.members && from != id && MsgOK(strict, m, w, from, id, msg)
    ensures Answers(strict, m, group, w, w', id, h, Handle(h.node, from, msg))
  {
    hide Inv, CommitInv, Grows, Answers, MsgOK, AdvanceCommit, ReplicateAll, StrictHost, Mirrors;
    var s := h.node;
    if msg.epoch > s.epoch {
      w' := LowerStep(strict, m, group, w, id, h, msg.epoch);
    } else if msg.epoch != s.epoch || !IsLeader(s) {
      w' := w;
      NothingStep(strict, m, group, w, id, h);
    } else if msg.ok {
      RowsPositive(s.role.next, from, msg.matchSeq + 1, 0);
      w' := AckStep(strict, m, group, w, id, h, from, msg.matchSeq);
    } else {
      RowsPositive(s.role.next, from, msg.matchSeq, s.baseSeq);
      w' := w;
      NackStep(strict, m, group, w, id, h, from, msg.matchSeq);
    }
  }
}
