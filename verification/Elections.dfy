/**
Election safety of the cluster as written, with snapshots, compaction and
restarts: over a whole run at most one node ever becomes leader in an epoch.

The ledger remembers the vote every node durably held in every epoch.  A
leader that fills an unused vote through an Append is entered like a granted
vote; what matters is that an entry never changes.
*/
module Elections {
  import opened Options
  import opened Quorum
  import opened Collections
  import opened Cluster
  import opened Turns
  import opened Groups

  datatype Ballot = Ballot(id: Id, epoch: nat)

  type Ledger = map<Ballot, Id>

  ghost predicate VotedFor(l: Ledger, v: Id, e: nat, c: Id) {
    Ballot(v, e) in l && l[Ballot(v, e)] == c
  }

  ghost predicate HostVotes(l: Ledger, group: seq<Id>, id: Id, h: Host) {
    && h.node.me == id && h.node.group == Sort(group) && id in group
    && WellFormed(h.node)
    && SameMeta(h.disk, h.node)
    && (h.node.votedFor.Some? ==> VotedFor(l, id, h.node.epoch, h.node.votedFor.value))
    && (h.node.votedFor.None? ==> Ballot(id, h.node.epoch) !in l)
    && (forall b :: b in l && b.id == id ==> b.epoch <= h.node.epoch)
    && (h.node.role.Candidate? ==> Ballots(l, group, id, h.node.epoch, h.node.role.votes))
  }

  /** Distinct members, each of which voted for `c` in epoch `e`. */
  ghost predicate Ballots(l: Ledger, group: seq<Id>, c: Id, e: nat, votes: seq<Id>) {
    NoRepeats(votes) && forall i :: 0 <= i < |votes| ==> votes[i] in group && VotedFor(l, votes[i], e, c)
  }

  ghost predicate PacketVotes(l: Ledger, group: seq<Id>, p: Packet) {
    && p.src in group
    && (p.msg.VoteResp? && p.msg.granted ==> VotedFor(l, p.src, p.msg.epoch, p.dst))
  }

  ghost predicate Elected(l: Ledger, group: seq<Id>, w: Leadership) {
    exists votes :: |votes| >= |group| / 2 + 1 && Ballots(l, group, w.id, w.epoch, votes)
  }

  ghost predicate VotesInv(group: seq<Id>, c: Cluster, l: Ledger) {
    && NoRepeats(group)
    && (forall id :: id in c.hosts ==> HostVotes(l, group, id, c.hosts[id]))
    && (forall p :: p in c.net ==> PacketVotes(l, group, p))
    && (forall w :: w in c.leaders ==> Elected(l, group, w))
  }

  ghost predicate Extends(l: Ledger, l': Ledger) {
    forall b :: b in l ==> b in l' && l'[b] == l[b]
  }

  /** Two elections of one epoch share a voter, and a voter has one entry per epoch. */
  lemma OneWinner(l: Ledger, group: seq<Id>, w: Leadership, w': Leadership)
    requires NoRepeats(group) && Elected(l, group, w) && Elected(l, group, w') && w.epoch == w'.epoch
    ensures w == w'
  {
    var p :| |p| >= |group| / 2 + 1 && Ballots(l, group, w.id, w.epoch, p);
    var q :| |q| >= |group| / 2 + 1 && Ballots(l, group, w'.id, w'.epoch, q);
    var ps, qs, gs := set x | x in p, set x | x in q, set x | x in group;
    NoRepeatsSize(p);
    NoRepeatsSize(q);
    NoRepeatsSize(group);
    var v := Overlap(ps, qs, gs);
  }

  /** The ledger after a turn: the node's vote is entered if it is new. */
  ghost function Enter(l: Ledger, s: Node): Ledger {
    if s.votedFor.Some? && Ballot(s.me, s.epoch) !in l then l[Ballot(s.me, s.epoch) := s.votedFor.value] else l
  }

  lemma TurnVotes(m: Machine, group: seq<Id>, c: Cluster, ev: Event, l: Ledger)
    requires VotesInv(group, c, l) && Enabled(c, ev) && AllWellFormed(c) && !ev.Shrink? && !ev.Crash?
    ensures var r := Turn(c.hosts[Actor(ev)].node, ev);
            VotesInv(group, Next(m, group, c, ev), Enter(l, r.node))
  {
    hide Turn, Save, Sends, PacketVotes, Elected;
    var id := Actor(ev);
    var r := Turn(c.hosts[id].node, ev);
    var l' := Enter(l, r.node);
    var c' := Next(m, group, c, ev);
    assert HostVotes(l, group, id, c.hosts[id]);
    TurnHost(m, group, c, ev, l);
    forall x | x in c'.hosts
      ensures HostVotes(l', group, x, c'.hosts[x])
    {
      if x != id {
        assert HostVotes(l, group, x, c.hosts[x]);
      }
    }
    forall p | p in c'.net
      ensures PacketVotes(l', group, p)
    {
      TurnPacket(m, group, c, ev, l, p);
    }
    forall w | w in c'.leaders
      ensures Elected(l', group, w)
    {
      TurnLeader(m, group, c, ev, l, w);
    }
  }

  lemma TurnPacket(m: Machine, group: seq<Id>, c: Cluster, ev: Event, l: Ledger, p: Packet)
    requires VotesInv(group, c, l) && Enabled(c, ev) && AllWellFormed(c) && !ev.Shrink? && !ev.Crash?
    requires p in Next(m, group, c, ev).net
    ensures PacketVotes(Enter(l, Turn(c.hosts[Actor(ev)].node, ev).node), group, p)
  {
    var h := c.hosts[Actor(ev)];
    var r := Turn(h.node, ev);
    assert HostVotes(l, group, Actor(ev), h);
    TurnDiscipline(h.node, ev);
    if p in c.net {
      assert PacketVotes(l, group, p);
    } else {
      SendsAskedFor(m, r.node, h.disk, r.actions, p);
      if p.msg.VoteResp? && p.msg.granted {
        assert Grants(Send(p.dst, p.msg));
      }
    }
  }

  lemma TurnLeader(m: Machine, group: seq<Id>, c: Cluster, ev: Event, l: Ledger, w: Leadership)
    requires VotesInv(group, c, l) && Enabled(c, ev) && AllWellFormed(c) && !ev.Shrink? && !ev.Crash?
    requires w in Next(m, group, c, ev).leaders
    ensures Elected(Enter(l, Turn(c.hosts[Actor(ev)].node, ev).node), group, w)
  {
    hide Turn, Save, Sends;
    var h := c.hosts[Actor(ev)];
    var r := Turn(h.node, ev);
    var l' := Enter(l, r.node);
    assert HostVotes(l, group, Actor(ev), h);
    TurnDiscipline(h.node, ev);
    if w in c.leaders {
      var votes :| |votes| >= |group| / 2 + 1 && Ballots(l, group, w.id, w.epoch, votes);
      assert Ballots(l', group, w.id, w.epoch, votes);
    } else {
      var votes :| |votes| >= MajorityOf(h.node) && CandidacyKept(h.node, ev, r.node, votes);
      SortedGroup(group);
      CandidacyBallots(group, c, ev, l, votes);
    }
  }

  lemma CandidacyBallots(group: seq<Id>, c: Cluster, ev: Event, l: Ledger, votes: seq<Id>)
    requires VotesInv(group, c, l) && Enabled(c, ev) && AllWellFormed(c) && !ev.Shrink? && !ev.Crash?
    requires var s := c.hosts[Actor(ev)].node; CandidacyKept(s, ev, Turn(s, ev).node, votes)
    ensures var r := Turn(c.hosts[Actor(ev)].node, ev);
            Ballots(Enter(l, r.node), group, Actor(ev), r.node.epoch, votes)
  {
    var h := c.hosts[Actor(ev)];
    assert HostVotes(l, group, Actor(ev), h);
    TurnDiscipline(h.node, ev);
    if ev.Deliver? {
      assert PacketVotes(l, group, ev.packet);
    }
  }

  lemma TurnHost(m: Machine, group: seq<Id>, c: Cluster, ev: Event, l: Ledger)
    requires VotesInv(group, c, l) && Enabled(c, ev) && AllWellFormed(c) && !ev.Shrink? && !ev.Crash?
    ensures var r := Turn(c.hosts[Actor(ev)].node, ev);
            HostVotes(Enter(l, r.node), group, Actor(ev), Next(m, group, c, ev).hosts[Actor(ev)])
  {
    var id := Actor(ev);
    var h := c.hosts[id];
    var r := Turn(h.node, ev);
    TurnDiscipline(h.node, ev);
    assert HostVotes(l, group, id, h);
    SaveMetaEffect(m, r.node, h.disk, r.actions);
    TurnBase(h.node, ev);
    if r.node.role.Candidate? {
      CandidacyBallots(group, c, ev, l, r.node.role.votes);
    }
  }

  /** The snapshot point only moves with an installed snapshot and together with a persisted epoch and vote. */
  lemma TurnBase(s: Node, ev: Event)
    requires WellFormed(s) && !ev.Shrink? && !ev.Crash?
    ensures var r := Turn(s, ev);
            && (PersistMeta in r.actions || (r.node.baseSeq == s.baseSeq && r.node.baseEpoch == s.baseEpoch))
            && (!(ev.Deliver? && ev.packet.msg.InstallSnapshot?) ==> r.node.baseSeq == s.baseSeq)
  {
    match ev
    case Timeout(_) =>
      if !IsLeader(s) {
        TimeoutShape(s);
      }
    case Pulse(_) =>
    case Client(_, cmd) =>
      if IsLeader(s) {
        AdvanceCommitShape(s.(log := s.log + [Entry(s.epoch, LastSeq(s) + 1, cmd)]));
      }
    case Deliver(p) =>
      match p.msg
      case VoteReq(_, _, _) =>
      case VoteResp(_, _) =>
        if p.msg.epoch == s.epoch && p.msg.granted {
          TryWinDiscipline(if s.role.Candidate? && p.src !in s.role.votes then s.(role := Candidate(s.role.votes + [p.src])) else s);
        }
      case Append(_, _, _, _, _) =>
        if p.msg.epoch >= s.epoch {
          AppendShape(s, p.src, p.msg);
        }
      case AppendResp(_, _, _) =>
        if p.msg.epoch == s.epoch && IsLeader(s) && p.msg.ok {
          RowsPositive(s.role.next, p.src, p.msg.matchSeq + 1, 0);
          AdvanceCommitShape(s.(role := Leader(SetTo(s.role.next, p.src, p.msg.matchSeq + 1),
              RaiseTo(s.role.matched, p.src, p.msg.matchSeq))));
        }
      case InstallSnapshot(_, _, _, _) =>
  }

  /** A compaction or a restart changes no vote. */
  lemma RestVotes(m: Machine, group: seq<Id>, c: Cluster, ev: Event, l: Ledger)
    requires VotesInv(group, c, l) && Enabled(c, ev) && AllWellFormed(c) && (ev.Shrink? || ev.Crash?)
    ensures VotesInv(group, Next(m, group, c, ev), l)
  {
    assert HostVotes(l, group, ev.id, c.hosts[ev.id]);
  }

  lemma {:induction false} RunVotes(m: Machine, group: seq<Id>, cs: seq<Cluster>, evs: seq<Event>) returns (l: Ledger)
    requires IsRun(m, group, cs, evs)
    ensures VotesInv(group, cs[|evs|], l)
    decreases |evs|
  {
    if evs == [] {
      l := map[];
    } else {
      RunPrefix(m, group, cs, evs);
      var n := |evs| - 1;
      l := RunVotes(m, group, cs[..|evs|], evs[..n]);
      if evs[n].Shrink? || evs[n].Crash? {
        RestVotes(m, group, cs[n], evs[n], l);
      } else {
        TurnVotes(m, group, cs[n], evs[n], l);
        l := Enter(l, Turn(cs[n].hosts[Actor(evs[n])].node, evs[n]).node);
      }
    }
  }

  /** Election safety: over a whole run, as written, an epoch has at most one leader. */
  lemma ElectionSafety(m: Machine, group: seq<Id>, cs: seq<Cluster>, evs: seq<Event>)
    requires IsRun(m, group, cs, evs)
    ensures forall w, w' :: w in cs[|evs|].leaders && w' in cs[|evs|].leaders && w.epoch == w'.epoch ==> w == w'
  {
    var l := RunVotes(m, group, cs, evs);
    forall w, w' | w in cs[|evs|].leaders && w' in cs[|evs|].leaders && w.epoch == w'.epoch
      ensures w == w'
    {
      OneWinner(l, group, w, w');
    }
  }

  /** No event can get stuck: the bookkeeping a turn relies on holds after every run. */
  lemma RunsContinue(m: Machine, group: seq<Id>, cs: seq<Cluster>, evs: seq<Event>, ev: Event)
    requires IsRun(m, group, cs, evs) && Enabled(cs[|evs|], ev)
    ensures AllWellFormed(cs[|evs|])
    ensures IsRun(m, group, cs + [Next(m, group, cs[|evs|], ev)], evs + [ev])
  {
    hide Next, Init, Ballots;
    var l := RunVotes(m, group, cs, evs);
    forall id | id in cs[|evs|].hosts
      ensures WellFormed(cs[|evs|].hosts[id].node)
    {
      assert HostVotes(l, group, id, cs[|evs|].hosts[id]);
    }
    var cs', evs' := cs + [Next(m, group, cs[|evs|], ev)], evs + [ev];
    forall i | 0 <= i < |evs'|
      ensures Step(m, group, cs'[i], evs'[i], cs'[i + 1])
    {
      if i < |evs| {
        assert Step(m, group, cs[i], evs[i], cs[i + 1]);
      }
    }
  }
}
