/**
The cluster carries out the protocol: a concrete cluster stands for a protocol
world, and every message in flight states a fact about that world's history.

Two readings share these definitions.  The strict one tracks compaction,
snapshots, commitment and the databases; it is kept by turns that pass the
guards of module Guards.  The plain one makes no assumption about
acknowledgements and knows nothing about commitment, but needs a cluster that
never compacts.
*/
module Simulation {
  import opened Options
  import opened Quorum
  import opened Collections
  import opened Groups
  import opened Cluster
  import opened Turns
  import opened Protocol
  import opened ProtocolSteps
  import opened Mirror
  import opened Storage

  // ---------------------------------------------------------------- hosts

  /** A vote for somebody else was granted on its merits, or filled in by the leader it names. */
  ghost predicate VoteBacked(h: History, id: Id, s: Member) {
    s.voted.Some? && s.voted.value != id ==> Backed(h, id, s.epoch, s.voted.value)
  }

  ghost predicate Backed(h: History, id: Id, e: nat, c: Id) {
    || (e in h.reigns && h.reigns[e].leader == c)
    || (&& Ballot(c, e) in h.bids && Ballot(id, e) in h.votes
        && UpToDate(h.bids[Ballot(c, e)], h.votes[Ballot(id, e)].log))
  }

  /** Nothing a majority holds in the leader's own epoch is left uncommitted. */
  ghost predicate Settled(s: Node) {
    s.role.Leader? ==>
      forall q :: s.commit < q <= LastSeq(s) && Replicas(s.role.matched, q) >= MajorityOf(s) ==>
        !(EntryAt(s, q).Some? && EntryAt(s, q).value.epoch == s.epoch)
  }

  ghost predicate AckedUpTo(h: History, id: Id, e: nat, q: nat) {
    q > 0 ==> Ballot(id, e) in h.acks && h.acks[Ballot(id, e)] >= q
  }

  ghost predicate RowsOK(h: History, s: Node, full: seq<Entry>) {
    s.role.Leader? ==>
      && (forall i :: 0 <= i < |s.role.next| ==> s.role.next[i].at <= |full| + 1)
      && (forall i :: 0 <= i < |s.role.matched| ==> AckedUpTo(h, s.role.matched[i].id, s.epoch, s.role.matched[i].at))
  }

  ghost predicate StrictHost(m: Machine, w: World, id: Id, h: Host)
    requires id in w.members
  {
    && h.node.baseSeq <= h.node.applied == h.node.commit
    && FileOK(m, h.disk.file, w.members[id].log, h.node.applied)
    && RowsOK(w.h, h.node, w.members[id].log)
    && Settled(h.node)
  }

  ghost predicate HostOK(strict: bool, m: Machine, group: seq<Id>, w: World, id: Id, h: Host) {
    && id in w.members
    && h.node.me == id && h.node.group == Sort(group) && WellFormed(h.node)
    && Mirrors(h.node, w.members[id])
    && VoteBacked(w.h, id, w.members[id])
    && Synced(h.disk, h.node)
    && (if strict then StrictHost(m, w, id, h) else h.node.baseSeq == 0 && CleanDisk(h.disk))
  }

  // ---------------------------------------------------------------- packets

  /** The Append carries a slice of the reign that reaches at least to where the reign started. */
  ghost predicate Slice(w: World, msg: Msg)
    requires msg.Append? && msg.epoch in w.h.reigns
  {
    var r := w.h.reigns[msg.epoch];
    var k := msg.prevSeq + |msg.entries|;
    && |r.start| <= k <= |r.log|
    && msg.entries == r.log[msg.prevSeq..k]
    && (msg.prevSeq > 0 ==> msg.prevEpoch == r.log[msg.prevSeq - 1].epoch)
  }

  ghost predicate AppendOK(strict: bool, w: World, src: Id, msg: Msg)
    requires msg.Append?
  {
    && msg.epoch in w.h.reigns && w.h.reigns[msg.epoch].leader == src
    && (Slice(w, msg) || (!strict && msg.prevSeq > 0 && msg.prevEpoch == 0 && msg.entries == []))
    && (strict ==> msg.commit <= msg.prevSeq + |msg.entries| && CommittedPrefix(w, msg.epoch, w.h.reigns[msg.epoch].log, msg.commit))
  }

  ghost predicate SnapshotOK(m: Machine, w: World, src: Id, msg: Msg)
    requires msg.InstallSnapshot?
  {
    && msg.epoch in w.h.reigns && w.h.reigns[msg.epoch].leader == src
    && var log := w.h.reigns[msg.epoch].log;
    && CommittedPrefix(w, msg.epoch, log, msg.lastSeq)
    && msg.lastEpoch == (if msg.lastSeq == 0 then 0 else log[msg.lastSeq - 1].epoch)
    && msg.data.db == Replay(m, log[..msg.lastSeq])
  }

  ghost predicate MsgOK(strict: bool, m: Machine, w: World, src: Id, dst: Id, msg: Msg) {
    match msg
    case VoteReq(e, lastEpoch, lastSeq) =>
      Ballot(src, e) in w.h.bids && LastEpoch(w.h.bids[Ballot(src, e)]) == lastEpoch && |w.h.bids[Ballot(src, e)]| == lastSeq
    case VoteResp(e, granted) =>
      granted ==> Ballot(src, e) in w.h.votes && w.h.votes[Ballot(src, e)].candidate == dst && Backed(w.h, src, e, dst)
    case Append(_, _, _, _, _) => AppendOK(strict, w, src, msg)
    case AppendResp(e, matchSeq, ok) => strict && ok ==> e in w.h.reigns && AckedUpTo(w.h, src, e, matchSeq)
    case InstallSnapshot(_, _, _, _) => strict && SnapshotOK(m, w, src, msg)
  }

  ghost predicate PacketOK(strict: bool, m: Machine, w: World, p: Packet) {
    p.src in w.members && p.dst in w.members && p.src != p.dst && MsgOK(strict, m, w, p.src, p.dst, p.msg)
  }

  /** The entry sits at its place in a committed prefix. */
  ghost predicate AppliedOK(w: World, e: Entry) {
    exists epoch: nat, log: seq<Entry>, c: nat :: AppliedIn(w, e, epoch, log, c)
  }

  ghost predicate AppliedIn(w: World, e: Entry, epoch: nat, log: seq<Entry>, c: nat) {
    CommittedPrefix(w, epoch, log, c) && 0 < e.seqno <= c && log[e.seqno - 1] == e
  }

  ghost predicate GroupOK(group: seq<Id>, w: World) {
    NoRepeats(group) && forall x :: x in w.members <==> x in group
  }

  ghost predicate SimInv(strict: bool, m: Machine, group: seq<Id>, c: Cluster, w: World) {
    && GroupOK(group, w) && w.members.Keys == c.hosts.Keys
    && Inv(w) && (strict ==> CommitInv(w))
    && (forall id {:trigger HostOK(strict, m, group, w, id, c.hosts[id])} :: id in c.hosts ==> HostOK(strict, m, group, w, id, c.hosts[id]))
    && (forall p {:trigger PacketOK(strict, m, w, p)} :: p in c.net ==> PacketOK(strict, m, w, p))
    && (strict ==> forall a {:trigger AppliedOK(w, a.entry)} :: a in c.applied ==> AppliedOK(w, a.entry))
  }

  // ---------------------------------------------------------------- moving the world

  /** A protocol move of member `id`. */
  ghost predicate Moved(strict: bool, w: World, w': World, id: Id) {
    && Inv(w') && (strict ==> CommitInv(w'))
    && id in w.members && w'.members.Keys == w.members.Keys
    && Grows(w.h, w'.h)
    && (forall x :: x in w.members && x != id ==> w'.members[x] == w.members[x])
  }

  lemma MovedTwice(strict: bool, w: World, w1: World, w2: World, id: Id)
    requires Moved(strict, w, w1, id) && Moved(strict, w1, w2, id)
    ensures Moved(strict, w, w2, id)
  {
  }

  lemma MovedNot(strict: bool, w: World, id: Id)
    requires Inv(w) && (strict ==> CommitInv(w)) && id in w.members
    ensures Moved(strict, w, w, id)
  {
  }

  lemma MsgGrows(strict: bool, m: Machine, w: World, w': World, src: Id, dst: Id, msg: Msg)
    requires Grows(w.h, w'.h) && w'.members.Keys == w.members.Keys
    requires MsgOK(strict, m, w, src, dst, msg)
    ensures MsgOK(strict, m, w', src, dst, msg)
  {
    match msg
    case VoteReq(_, _, _) =>
    case VoteResp(_, _) =>
    case AppendResp(_, _, _) =>
    case Append(e, prev, _, entries, commit) =>
      var log, log' := w.h.reigns[e].log, w'.h.reigns[e].log;
      if Slice(w, msg) {
        assert log[prev..prev + |entries|] == log'[prev..prev + |entries|];
      }
      if strict {
        CommittedPrefixGrows(w, w', e, e, log, log', commit);
      }
    case InstallSnapshot(e, lastSeq, _, _) =>
      var log, log' := w.h.reigns[e].log, w'.h.reigns[e].log;
      CommittedPrefixGrows(w, w', e, e, log, log', lastSeq);
      assert log[..lastSeq] == log'[..lastSeq];
  }

  lemma HostGrows(strict: bool, m: Machine, group: seq<Id>, w: World, w': World, id: Id, h: Host)
    requires Grows(w.h, w'.h) && w'.members.Keys == w.members.Keys
    requires HostOK(strict, m, group, w, id, h) && w'.members[id] == w.members[id]
    ensures HostOK(strict, m, group, w', id, h)
  {
  }

  lemma AppliedGrows(w: World, w': World, e: Entry)
    requires Grows(w.h, w'.h) && w'.members.Keys == w.members.Keys
    requires AppliedOK(w, e)
    ensures AppliedOK(w', e)
  {
    var epoch: nat, log: seq<Entry>, c: nat :| AppliedIn(w, e, epoch, log, c);
    CommittedPrefixGrows(w, w', epoch, epoch, log, log, c);
    assert AppliedIn(w', e, epoch, log, c);
  }

  // ---------------------------------------------------------------- landing a turn

  /** The packets and applications a turn of `id` adds are right in the new world. */
  ghost predicate Landed(strict: bool, m: Machine, group: seq<Id>, w': World, id: Id, h: Host, sent: set<Packet>,
          applied: set<Application>) {
    && HostOK(strict, m, group, w', id, h)
    && (forall p {:trigger PacketOK(strict, m, w', p)} :: p in sent ==> PacketOK(strict, m, w', p))
    && (strict ==> forall a {:trigger AppliedOK(w', a.entry)} :: a in applied ==> AppliedOK(w', a.entry))
  }

  lemma Land(strict: bool, m: Machine, group: seq<Id>, c: Cluster, c': Cluster, w: World, w': World, id: Id,
             h: Host, sent: set<Packet>, applied: set<Application>)
    requires SimInv(strict, m, group, c, w) && Moved(strict, w, w', id)
    requires Landed(strict, m, group, w', id, h, sent, applied)
    requires id in c.hosts && c'.hosts == c.hosts[id := h]
    requires c'.net == c.net + sent && c'.applied == c.applied + applied
    ensures SimInv(strict, m, group, c', w')
  {
    forall x | x in c'.hosts
      ensures HostOK(strict, m, group, w', x, c'.hosts[x])
    {
      if x != id {
        assert HostOK(strict, m, group, w, x, c.hosts[x]);
        HostGrows(strict, m, group, w, w', x, c.hosts[x]);
      }
    }
    forall p | p in c'.net
      ensures PacketOK(strict, m, w', p)
    {
      if p in c.net {
        assert PacketOK(strict, m, w, p);
        MsgGrows(strict, m, w, w', p.src, p.dst, p.msg);
      }
    }
    if strict {
      forall a | a in c'.applied
        ensures AppliedOK(w', a.entry)
      {
        if a in c.applied {
          assert AppliedOK(w, a.entry);
          AppliedGrows(w, w', a.entry);
        }
      }
    }
  }

  /** The member leads the reign of its epoch. */
  ghost predicate LeadsReign(w: World, id: Id) {
    && id in w.members && w.members[id].epoch in w.h.reigns
    && w.h.reigns[w.members[id].epoch].leader == id && w.h.reigns[w.members[id].epoch].log == w.members[id].log
  }

  ghost predicate SendOK(strict: bool, m: Machine, w: World, id: Id, a: Action) {
    && (a.Send? ==> a.to in w.members && a.to != id && !a.msg.InstallSnapshot? && MsgOK(strict, m, w, id, a.to, a.msg))
    && (a.NeedSnapshot? ==> strict && a.peer in w.members && a.peer != id && LeadsReign(w, id))
  }

  ghost predicate SendsOK(strict: bool, m: Machine, w: World, id: Id, actions: seq<Action>) {
    forall a {:trigger SendOK(strict, m, w, id, a)} :: a in actions ==> SendOK(strict, m, w, id, a)
  }

  ghost predicate NodeOK(group: seq<Id>, w: World, id: Id, s: Node) {
    && id in w.members
    && s.me == id && s.group == Sort(group) && WellFormed(s)
    && Mirrors(s, w.members[id])
    && VoteBacked(w.h, id, w.members[id])
  }

  /** The database is paced from `k` to the new applied mark, and a leader's bookkeeping is truthful. */
  ghost predicate StrictTurn(m: Machine, w': World, id: Id, file: DbFile, r: Outcome, k: nat)
    requires id in w'.members
  {
    && r.node.baseSeq <= r.node.applied == r.node.commit
    && FileOK(m, file, w'.members[id].log, k)
    && Paced(m, w'.members[id].log, r.node.applied, r.actions, k, r.node.applied)
    && RowsOK(w'.h, r.node, w'.members[id].log)
    && Settled(r.node)
  }

  /** What has to be shown of a turn that leaves node `r.node`. */
  ghost predicate TurnOK(strict: bool, m: Machine, group: seq<Id>, w': World, id: Id, h: Host, r: Outcome) {
    && NodeOK(group, w', id, r.node)
    && Synced(Save(m, r.node, h.disk, r.actions), r.node)
    && SendsOK(strict, m, w', id, r.actions)
    && (if strict then StrictTurn(m, w', id, h.disk.file, r, h.node.applied) else r.node.baseSeq == 0)
  }

  /** The protocol's answer to a turn of member `id`. */
  ghost predicate Answers(strict: bool, m: Machine, group: seq<Id>, w: World, w': World, id: Id, h: Host, r: Outcome) {
    Moved(strict, w, w', id) && TurnOK(strict, m, group, w', id, h, r)
  }

  /** Where a turn of member `id` starts. */
  ghost predicate Here(strict: bool, m: Machine, group: seq<Id>, w: World, id: Id, h: Host) {
    Inv(w) && (strict ==> CommitInv(w)) && GroupOK(group, w) && HostOK(strict, m, group, w, id, h)
  }

  lemma TurnPackets(strict: bool, m: Machine, group: seq<Id>, w': World, id: Id, h: Host, r: Outcome, p: Packet)
    requires Inv(w') && (strict ==> CommitInv(w'))
    requires TurnOK(strict, m, group, w', id, h, r)
    requires p in Sends(m, r.node, h.disk, r.actions)
    ensures PacketOK(strict, m, w', p)
  {
    SendsAskedFor(m, r.node, h.disk, r.actions, p);
    if Send(p.dst, p.msg) in r.actions {
      assert SendOK(strict, m, w', id, Send(p.dst, p.msg));
    } else {
      assert SendOK(strict, m, w', id, NeedSnapshot(p.dst));
      var full := w'.members[id].log;
      assert MemberOK(w', id, w'.members[id]);
      PacedSnapshot(m, r.node, h.disk, full, r.node.applied, r.actions, h.node.applied, r.node.applied, p);
      SnapshotPoint(r.node, full);
    }
  }

  lemma TurnApplied(m: Machine, group: seq<Id>, w': World, id: Id, h: Host, r: Outcome, a: Application)
    requires Inv(w') && CommitInv(w')
    requires TurnOK(true, m, group, w', id, h, r)
    requires a in Applies(id, r.actions)
    ensures AppliedOK(w', a.entry)
  {
    var s := w'.members[id];
    assert MemberOK(w', id, s);
    PacedApplies(m, s.log, r.node.applied, r.actions, h.node.applied, r.node.applied, a.entry);
    assert AppliedIn(w', a.entry, s.epoch, s.log, s.commit);
  }

  lemma {:induction false} SaveClean(m: Machine, s: Node, disk: Disk, actions: seq<Action>, b: nat)
    requires forall e :: e in disk.log ==> e.seqno > b
    requires forall e :: e in s.log ==> e.seqno > b
    ensures forall e :: e in Save(m, s, disk, actions).log ==> e.seqno > b
    decreases |actions|
  {
    if actions != [] {
      if actions[0].PersistLog? {
        FilterSubset(disk.log, actions[0].fromSeq);
        FilterSubset(s.log, actions[0].fromSeq);
      }
      SaveClean(m, s, SaveOne(m, s, disk, actions[0]), actions[1..], b);
    }
  }

  lemma FilterSubset(log: seq<Entry>, q: nat)
    ensures forall e :: e in EntriesBelow(log, q) ==> e in log
    ensures forall e :: e in EntriesFrom(log, q) ==> e in log
  {
  }

  lemma TurnHostOK(strict: bool, m: Machine, group: seq<Id>, w': World, id: Id, h: Host, r: Outcome)
    requires Inv(w') && (strict ==> CommitInv(w'))
    requires TurnOK(strict, m, group, w', id, h, r)
    requires !strict ==> h.node.baseSeq == 0 && SameMeta(h.disk, h.node) && CleanDisk(h.disk)
    ensures HostOK(strict, m, group, w', id, Host(r.node, Save(m, r.node, h.disk, r.actions)))
  {
    var full := w'.members[id].log;
    assert MemberOK(w', id, w'.members[id]);
    if strict {
      PacedFile(m, r.node, h.disk, full, r.node.applied, r.actions, h.node.applied, r.node.applied);
    } else {
      forall e | e in r.node.log
        ensures e.seqno > 0
      {
        var i :| 0 <= i < |r.node.log| && r.node.log[i] == e;
        assert full[i] == e;
      }
      SaveClean(m, r.node, h.disk, r.actions, 0);
    }
  }

  /** An outcome that meets `TurnOK` keeps the simulation once it is carried out. */
  lemma CarriedLands(strict: bool, m: Machine, group: seq<Id>, c: Cluster, w: World, w': World, id: Id, r: Outcome)
    requires SimInv(strict, m, group, c, w) && id in c.hosts && Moved(strict, w, w', id)
    requires TurnOK(strict, m, group, w', id, c.hosts[id], r)
    ensures SimInv(strict, m, group, Carried(m, c, id, r), w')
  {
    hide Save, Sends;
    var h := c.hosts[id];
    assert HostOK(strict, m, group, w, id, h);
    var h' := Host(r.node, Save(m, r.node, h.disk, r.actions));
    var sent, applied := Sends(m, r.node, h.disk, r.actions), Applies(id, r.actions);
    TurnHostOK(strict, m, group, w', id, h, r);
    forall p | p in sent
      ensures PacketOK(strict, m, w', p)
    {
      TurnPackets(strict, m, group, w', id, h, r, p);
    }
    if strict {
      forall a | a in applied
        ensures AppliedOK(w', a.entry)
      {
        TurnApplied(m, group, w', id, h, r, a);
      }
    }
    Land(strict, m, group, c, Carried(m, c, id, r), w, w', id, h', sent, applied);
  }

  lemma TurnLands(strict: bool, m: Machine, group: seq<Id>, c: Cluster, w: World, w': World, ev: Event)
    requires SimInv(strict, m, group, c, w)
    requires Enabled(c, ev) && AllWellFormed(c) && !ev.Shrink? && !ev.Crash?
    requires Moved(strict, w, w', Actor(ev))
    requires TurnOK(strict, m, group, w', Actor(ev), c.hosts[Actor(ev)], Turn(c.hosts[Actor(ev)].node, ev))
    ensures SimInv(strict, m, group, Next(m, group, c, ev), w')
  {
    hide SimInv, Moved, TurnOK, Turn, Carried;
    CarriedLands(strict, m, group, c, w, w', Actor(ev), Turn(c.hosts[Actor(ev)].node, ev));
  }
}
