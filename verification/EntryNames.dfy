/**
An epoch and a sequence number name one entry, in every run whose restarts find a
clean store and whatever is acknowledged: no two nodes ever hold, and no two
messages ever carry, different entries under one name.

The book collects every entry ever proposed.  Only the one leader of an epoch
proposes entries of that epoch, each under a number beyond its log.
*/
module EntryNames {
  import opened Options
  import opened Quorum
  import opened Collections
  import opened Cluster
  import opened Turns
  import opened Elections
  import opened Storage
  import opened SimLeader
  import opened SimAppend
  import opened SimRest
  import opened Guards
  import opened LogShape

  type Book = set<Entry>

  predicate SameName(a: Entry, b: Entry) {
    a.epoch == b.epoch && a.seqno == b.seqno
  }

  ghost predicate NamesUnique(book: Book) {
    forall a, b :: a in book && b in book && SameName(a, b) ==> a == b
  }

  predicate Listed(book: Book, log: seq<Entry>) {
    forall e :: e in log ==> e in book
  }

  predicate MsgListed(book: Book, msg: Msg) {
    msg.Append? ==> Listed(book, msg.entries)
  }

  /** A leader's log reaches every entry of its epoch. */
  ghost predicate ReachesAll(book: Book, s: Node) {
    IsLeader(s) ==> forall e :: e in book && e.epoch == s.epoch ==> e.seqno <= LastSeq(s)
  }

  ghost predicate HostListed(book: Book, id: Id, h: Host, leaders: set<Leadership>) {
    && h.node.me == id && Listed(book, h.node.log) && ReachesAll(book, h.node)
    && (IsLeader(h.node) ==> Leadership(h.node.epoch, id) in leaders)
  }

  /** Whoever led an epoch is past it or no longer a candidate in it. */
  predicate HasLed(s: Node, e: nat) {
    s.epoch > e || (s.epoch == e && !s.role.Candidate?)
  }

  ghost predicate Booked(c: Cluster, book: Book) {
    && NamesUnique(book)
    && (forall id {:trigger HostListed(book, id, c.hosts[id], c.leaders)} :: id in c.hosts ==> HostListed(book, id, c.hosts[id], c.leaders))
    && (forall p {:trigger MsgListed(book, p.msg)} :: p in c.net ==> MsgListed(book, p.msg))
    && (forall e {:trigger e in book} :: e in book ==> exists id :: Leadership(e.epoch, id) in c.leaders)
    && (forall w {:trigger w in c.leaders} :: w in c.leaders ==> w.id in c.hosts && HasLed(c.hosts[w.id].node, w.epoch))
  }

  // ---------------------------------------------------------------- what a turn adds

  lemma {:induction false} MergedElements(base: nat, acc: Merged, entries: seq<Entry>)
    ensures forall e :: e in Merge(base, acc, entries).log ==> e in acc.log || e in entries
    decreases |entries|
  {
    if entries != [] {
      MergedElements(base, MergeOne(base, acc, entries[0]), entries[1..]);
    }
  }

  lemma {:induction false} ShippedElements(log: seq<Entry>, q: nat)
    ensures forall e :: e in EntriesFrom(log, q) ==> e in log
    decreases |log|
  {
    if log != [] {
      ShippedElements(log[1..], q);
    }
  }

  ghost predicate SendsListed(book: Book, actions: seq<Action>) {
    forall a :: a in actions && a.Send? ==> MsgListed(book, a.msg)
  }

  lemma {:induction false} ReplicateListed(book: Book, s: Node, next: seq<Progress>)
    requires Listed(book, s.log) && AllPositive(next)
    ensures SendsListed(book, Replicate(s, next))
    decreases |next|
  {
    if next != [] {
      ShippedElements(s.log, next[0].at);
      ReplicateListed(book, s, next[1..]);
    }
  }

  lemma AdvanceListed(book: Book, s: Node)
    requires WellFormed(s) && Listed(book, s.log)
    ensures SendsListed(book, AdvanceCommit(s).actions)
  {
    hide Replicate, MsgListed, ApplyRange;
    if s.role.Leader? {
      AdvanceIs(s);
      ApplyRangeShape(s, s.applied, CommitNode(s).commit);
      ReplicateListed(book, CommitNode(s), s.role.next);
    }
  }

  lemma WinListed(book: Book, s: Node)
    requires WellFormed(s) && Listed(book, s.log)
    ensures SendsListed(book, TryWin(s).actions)
  {
    hide Replicate, MsgListed;
    var t := TryWin(s).node;
    if t.role.Leader? && s.role.Candidate? {
      ReplicateListed(book, t, t.role.next);
    }
  }

  /** The entry a turn proposes, if any. */
  function Proposed(s: Node, ev: Event): set<Entry> {
    if ev.Client? && IsLeader(s) then {Entry(s.epoch, LastSeq(s) + 1, ev.cmd)} else {}
  }

  /** A turn leaves listed logs and messages once its proposal is in the book. */
  ghost predicate TurnListed(book: Book, r: Outcome) {
    Listed(book, r.node.log) && SendsListed(book, r.actions)
  }

  lemma ClientListed(book: Book, s: Node, ev: Event)
    requires WellFormed(s) && ev.Client? && Listed(book, s.log)
    ensures TurnListed(book + Proposed(s, ev), Propose(s, ev.cmd))
  {
    hide Replicate, MsgListed, AdvanceCommit;
    if IsLeader(s) {
      var book' := book + Proposed(s, ev);
      var s' := s.(log := s.log + [Entry(s.epoch, LastSeq(s) + 1, ev.cmd)]);
      AdvanceCommitShape(s');
      AdvanceListed(book', s');
      ReplicateListed(book', s', s'.role.next);
    }
  }

  lemma AppendListed(book: Book, s: Node, from: Id, msg: Msg)
    requires msg.Append? && Listed(book, s.log) && MsgListed(book, msg)
    ensures TurnListed(book, HandleAppend(s, from, msg))
  {
    hide Follow, Merge, PrevOK, ApplyRange;
    if msg.epoch >= s.epoch {
      FollowDiscipline(s, from, msg.epoch);
      AppendShape(s, from, msg);
      MergedElements(s.baseSeq, Merged(s.log, None), msg.entries);
    }
  }

  lemma DeliveryListed(book: Book, s: Node, from: Id, msg: Msg)
    requires WellFormed(s) && Listed(book, s.log) && MsgListed(book, msg)
    ensures TurnListed(book, Handle(s, from, msg))
  {
    hide Replicate, AdvanceCommit, TryWin, Follow, HandleAppend, Listed;
    assert Listed(book, []) by { NothingListed(book); }
    match msg {
      case VoteReq(_, _, _) =>
      case VoteResp(_, _) =>
        if msg.epoch == s.epoch && msg.granted {
          var s' := if s.role.Candidate? && from !in s.role.votes then s.(role := Candidate(s.role.votes + [from])) else s;
          TryWinDiscipline(s');
          WinListed(book, s');
        }
      case Append(_, _, _, _, _) => AppendListed(book, s, from, msg);
      case AppendResp(_, _, _) =>
        if msg.epoch == s.epoch && IsLeader(s) {
          if msg.ok {
            RowsPositive(s.role.next, from, msg.matchSeq + 1, 0);
            var s' := s.(role := Leader(SetTo(s.role.next, from, msg.matchSeq + 1),
                RaiseTo(s.role.matched, from, msg.matchSeq)));
            AdvanceCommitShape(s');
            AdvanceListed(book, s');
          } else {
            RowsPositive(s.role.next, from, msg.matchSeq, s.baseSeq);
            var s' := s.(role := Leader(BackUpRow(s.role.next, from, s.baseSeq, msg.matchSeq), s.role.matched));
            ReplicateListed(book, s', s'.role.next);
          }
        }
      case InstallSnapshot(_, _, _, _) =>
        if msg.epoch >= s.epoch {
          FollowDiscipline(s, from, msg.epoch);
        }
    }
  }

  lemma NothingListed(book: Book)
    ensures Listed(book, [])
  {
  }

  lemma TimeoutListed(book: Book, s: Node)
    requires WellFormed(s) && Listed(book, s.log)
    ensures TurnListed(book, TickElection(s))
  {
    hide Replicate, TryWin, Listed;
    if !IsLeader(s) {
      TimeoutShape(s);
      var s' := s.(epoch := s.epoch + 1, votedFor := Some(s.me), leader := None, role := Candidate([s.me]));
      WinListed(book, s');
      SendEachShape(Others(s.group, s.me), VoteReq(s'.epoch, LastEpochOf(s), LastSeq(s)));
    }
  }

  lemma TurnLists(book: Book, s: Node, ev: Event)
    requires WellFormed(s) && Listed(book, s.log) && !ev.Shrink? && !ev.Crash?
    requires ev.Deliver? ==> MsgListed(book, ev.packet.msg)
    ensures TurnListed(book + Proposed(s, ev), Turn(s, ev))
  {
    hide TurnListed, TickElection, Propose, Handle, Replicate;
    assert !ev.Client? ==> book + Proposed(s, ev) == book;
    match ev {
      case Timeout(_) => TimeoutListed(book, s);
      case Pulse(_) =>
        if IsLeader(s) {
          ReplicateListed(book, s, s.role.next);
        }
        PulseListed(book, s);
      case Client(_, _) => ClientListed(book, s, ev);
      case Deliver(p) => DeliveryListed(book, s, p.src, p.msg);
    }
  }

  lemma PulseListed(book: Book, s: Node)
    requires WellFormed(s) && Listed(book, s.log) && (IsLeader(s) ==> SendsListed(book, Replicate(s, s.role.next)))
    ensures TurnListed(book, Heartbeat(s))
  {
  }

  // ---------------------------------------------------------------- how a node reaches further

  /** A leader that stays in office in its epoch reaches at least as far, and as far as it proposes. */
  lemma LeaderReaches(s: Node, ev: Event)
    requires WellFormed(s) && NumberedFrom(s.baseSeq, s.log) && !ev.Shrink? && !ev.Crash?
    requires IsLeader(s) && IsLeader(Turn(s, ev).node) && Turn(s, ev).node.epoch == s.epoch
    ensures LastSeq(s) <= LastSeq(Turn(s, ev).node)
    ensures forall e :: e in Proposed(s, ev) ==> e.seqno <= LastSeq(Turn(s, ev).node)
  {
    hide Replicate, AdvanceCommit, TryWin, Follow, PrevOK, Merge, ApplyRange;
    ReadsByNumber(s, 0);
    match ev {
      case Timeout(_) =>
      case Pulse(_) =>
      case Client(_, cmd) => AdvanceCommitShape(s.(log := s.log + [Entry(s.epoch, LastSeq(s) + 1, cmd)]));
      case Deliver(p) => LeaderHears(s, p.src, p.msg);
    }
  }

  lemma LeaderHears(s: Node, from: Id, msg: Msg)
    requires WellFormed(s) && IsLeader(s) && IsLeader(Handle(s, from, msg).node) && Handle(s, from, msg).node.epoch == s.epoch
    ensures Handle(s, from, msg).node.log == s.log && Handle(s, from, msg).node.baseSeq == s.baseSeq
  {
    hide Replicate, AdvanceCommit, Follow, PrevOK, Merge, ApplyRange;
    match msg {
      case VoteReq(_, _, _) =>
      case VoteResp(_, _) => NoWin(s);
      case Append(_, _, _, _, _) =>
        if msg.epoch >= s.epoch {
          FollowDiscipline(s, from, msg.epoch);
          AppendShape(s, from, msg);
        }
      case AppendResp(_, _, _) =>
        if msg.epoch == s.epoch && msg.ok {
          RowsPositive(s.role.next, from, msg.matchSeq + 1, 0);
          AdvanceCommitShape(s.(role := Leader(SetTo(s.role.next, from, msg.matchSeq + 1),
              RaiseTo(s.role.matched, from, msg.matchSeq))));
        }
      case InstallSnapshot(_, _, _, _) =>
        if msg.epoch >= s.epoch {
          FollowDiscipline(s, from, msg.epoch);
        }
    }
  }

  /** A node that leads after a turn led its epoch before, or has just become leader and was a candidate or behind. */
  lemma BecomesLeader(s: Node, ev: Event)
    requires WellFormed(s) && !ev.Shrink? && !ev.Crash?
    ensures var r := Turn(s, ev);
            && (IsLeader(r.node) && !(IsLeader(s) && s.epoch == r.node.epoch) ==>
                  BecameLeader in r.actions && (s.epoch < r.node.epoch || s.role.Candidate?) && Proposed(s, ev) == {})
            && (BecameLeader in r.actions ==> IsLeader(r.node))
            && r.node.me == s.me
  {
    hide Replicate, AdvanceCommit, Follow, PrevOK, Merge, ApplyRange;
    TurnDiscipline(s, ev);
    match ev {
      case Timeout(_) =>
        if !IsLeader(s) {
          TimeoutWins(s);
        }
      case Pulse(_) =>
        if IsLeader(s) {
          ReplicateShape(s, s.role.next);
        }
      case Client(_, cmd) =>
        if IsLeader(s) {
          var s' := s.(log := s.log + [Entry(s.epoch, LastSeq(s) + 1, cmd)]);
          AdvanceCommitShape(s');
          ReplicateShape(s', s'.role.next);
        }
      case Deliver(p) => DeliveryWins(s, p.src, p.msg);
    }
  }

  lemma TimeoutWins(s: Node)
    requires WellFormed(s) && !IsLeader(s)
    ensures IsLeader(TickElection(s).node) <==> BecameLeader in TickElection(s).actions
  {
    hide Replicate;
    var s' := s.(epoch := s.epoch + 1, votedFor := Some(s.me), leader := None, role := Candidate([s.me]));
    SendEachShape(Others(s.group, s.me), VoteReq(s'.epoch, LastEpochOf(s), LastSeq(s)));
    WinSays(s');
    var sent, won := SendEach(Others(s.group, s.me), VoteReq(s'.epoch, LastEpochOf(s), LastSeq(s))), TryWin(s').actions;
    assert TickElection(s).actions == [PersistMeta] + sent + won;
  }

  lemma WinSays(s: Node)
    requires WellFormed(s)
    ensures !IsLeader(s) ==> (IsLeader(TryWin(s).node) <==> BecameLeader in TryWin(s).actions)
    ensures IsLeader(s) ==> TryWin(s) == Outcome(s, [])
  {
    hide Replicate;
    var r := TryWin(s);
    if s.role.Candidate? && |s.role.votes| >= MajorityOf(s) {
      assert r.actions[0] == BecameLeader;
    }
  }

  lemma DeliveryWins(s: Node, from: Id, msg: Msg)
    requires WellFormed(s)
    ensures var r := Handle(s, from, msg);
            && (IsLeader(r.node) && !(IsLeader(s) && s.epoch == r.node.epoch) ==> BecameLeader in r.actions && s.role.Candidate?)
            && (BecameLeader in r.actions ==> IsLeader(r.node))
  {
    hide Replicate, AdvanceCommit, TryWin, Follow, PrevOK, Merge, ApplyRange;
    match msg {
      case VoteReq(_, _, _) =>
      case VoteResp(_, _) =>
        if msg.epoch == s.epoch && msg.granted {
          var s' := if s.role.Candidate? && from !in s.role.votes then s.(role := Candidate(s.role.votes + [from])) else s;
          WinSays(s');
          if !s.role.Candidate? {
            NoWin(s);
          }
        }
      case Append(_, _, _, _, _) =>
        if msg.epoch >= s.epoch {
          FollowDiscipline(s, from, msg.epoch);
          AppendShape(s, from, msg);
        }
      case AppendResp(_, _, _) =>
        if msg.epoch == s.epoch && IsLeader(s) {
          if msg.ok {
            RowsPositive(s.role.next, from, msg.matchSeq + 1, 0);
            AdvanceCommitShape(s.(role := Leader(SetTo(s.role.next, from, msg.matchSeq + 1),
                RaiseTo(s.role.matched, from, msg.matchSeq))));
          } else {
            RowsPositive(s.role.next, from, msg.matchSeq, s.baseSeq);
            var s' := s.(role := Leader(BackUpRow(s.role.next, from, s.baseSeq, msg.matchSeq), s.role.matched));
            ReplicateShape(s', s'.role.next);
          }
        }
      case InstallSnapshot(_, _, _, _) =>
        if msg.epoch >= s.epoch {
          FollowDiscipline(s, from, msg.epoch);
        }
    }
  }

  // ---------------------------------------------------------------- one step

  ghost predicate OneLeaderEach(c: Cluster) {
    forall w, w' :: w in c.leaders && w' in c.leaders && w.epoch == w'.epoch ==> w == w'
  }

  lemma BookGrows(book: Book, s: Node, ev: Event)
    requires NamesUnique(book) && ReachesAll(book, s)
    ensures NamesUnique(book + Proposed(s, ev))
  {
  }

  /** The acting node, once its turn is done. */
  lemma ActorListed(m: Machine, group: seq<Id>, c: Cluster, ev: Event, c': Cluster, book: Book)
    requires Booked(c, book) && Shaped(c) && Step(m, group, c, ev, c') && !ev.Shrink? && !ev.Crash? && OneLeaderEach(c')
    ensures var id, s := Actor(ev), c.hosts[Actor(ev)].node;
            HostListed(book + Proposed(s, ev), id, c'.hosts[id], c'.leaders)
  {
    hide Turn, Save, Sends, MsgListed, Contiguous, Synced, NamesUnique, Proposed;
    var id := Actor(ev);
    var h := c.hosts[id];
    var s, r := h.node, Turn(h.node, ev);
    var book' := book + Proposed(s, ev);
    assert HostListed(book, id, h, c.leaders) && HostShape(h);
    if ev.Deliver? {
      assert MsgListed(book, ev.packet.msg);
    }
    TurnLists(book, s, ev);
    BecomesLeader(s, ev);
    if IsLeader(r.node) {
      if IsLeader(s) && s.epoch == r.node.epoch {
        LeaderReaches(s, ev);
      } else {
        assert book' == book;
        forall e | e in book
          ensures e.epoch != r.node.epoch
        {
          FreshEpoch(m, group, c, ev, c', book, e);
        }
      }
    }
  }

  /** Nothing of its epoch was proposed before a leader takes office. */
  lemma FreshEpoch(m: Machine, group: seq<Id>, c: Cluster, ev: Event, c': Cluster, book: Book, e: Entry)
    requires Booked(c, book) && Step(m, group, c, ev, c') && !ev.Shrink? && !ev.Crash? && OneLeaderEach(c') && e in book
    requires var s := c.hosts[Actor(ev)].node;
             s.me == Actor(ev) && IsLeader(Turn(s, ev).node) && !(IsLeader(s) && s.epoch == Turn(s, ev).node.epoch)
    ensures e.epoch != Turn(c.hosts[Actor(ev)].node, ev).node.epoch
  {
    hide Turn, Save, Sends, MsgListed, HostListed, NamesUnique, Proposed;
    var id := Actor(ev);
    var s := c.hosts[id].node;
    var r := Turn(s, ev);
    BecomesLeader(s, ev);
    TurnDiscipline(s, ev);
    var x :| Leadership(e.epoch, x) in c.leaders;
    assert Leadership(r.node.epoch, id) in c'.leaders;
    assert x in c.hosts && HasLed(c.hosts[x].node, e.epoch);
    assert e.epoch == r.node.epoch ==> x == id;
  }

  lemma OthersListed(c: Cluster, book: Book, leaders: set<Leadership>, id: Id, s: Node, ev: Event, x: Id)
    requires Booked(c, book) && id in c.hosts && s == c.hosts[id].node && x in c.hosts && x != id
    requires c.leaders <= leaders && forall w, w' :: w in leaders && w' in leaders && w.epoch == w'.epoch ==> w == w'
    ensures HostListed(book + Proposed(s, ev), x, c.hosts[x], leaders)
  {
    assert HostListed(book, id, c.hosts[id], c.leaders) && HostListed(book, x, c.hosts[x], c.leaders);
  }

  lemma LedStays(s: Node, t: Node, e: nat)
    requires HasLed(s, e) && Ages(s, t)
    ensures HasLed(t, e)
  {
  }

  lemma TurnBooked(m: Machine, group: seq<Id>, c: Cluster, ev: Event, c': Cluster, book: Book)
    requires Booked(c, book) && Shaped(c) && Step(m, group, c, ev, c') && !ev.Shrink? && !ev.Crash? && OneLeaderEach(c')
    ensures Booked(c', book + Proposed(c.hosts[Actor(ev)].node, ev))
  {
    hide Turn, Save, Sends, MsgListed, HostListed, Ages, HasLed, Shaped, NamesUnique;
    var id := Actor(ev);
    var h := c.hosts[id];
    var s, r := h.node, Turn(h.node, ev);
    var book' := book + Proposed(s, ev);
    assert HostListed(book, id, h, c.leaders);
    HostReaches(book, id, h, c.leaders);
    BookGrows(book, s, ev);
    ActorListed(m, group, c, ev, c', book);
    BecomesLeader(s, ev);
    TurnAges(s, ev);
    forall x | x in c'.hosts
      ensures HostListed(book', x, c'.hosts[x], c'.leaders)
    {
      if x != id {
        OthersListed(c, book, c'.leaders, id, s, ev, x);
      }
    }
    forall p | p in c'.net
      ensures MsgListed(book', p.msg)
    {
      PacketListed(m, group, c, ev, book, p);
    }
    forall w | w in c'.leaders
      ensures w.id in c'.hosts && HasLed(c'.hosts[w.id].node, w.epoch)
    {
      if w in c.leaders {
        assert HasLed(c.hosts[w.id].node, w.epoch);
        if w.id == id {
          LedStays(s, r.node, w.epoch);
        }
      } else {
        LeadsNow(r.node);
      }
    }
  }

  lemma HostReaches(book: Book, id: Id, h: Host, leaders: set<Leadership>)
    requires HostListed(book, id, h, leaders)
    ensures h.node.me == id && ReachesAll(book, h.node) && Listed(book, h.node.log)
    ensures IsLeader(h.node) ==> Leadership(h.node.epoch, id) in leaders
  {
  }

  lemma LeadsNow(s: Node)
    requires IsLeader(s)
    ensures HasLed(s, s.epoch)
  {
  }

  lemma PacketListed(m: Machine, group: seq<Id>, c: Cluster, ev: Event, book: Book, p: Packet)
    requires Booked(c, book) && Enabled(c, ev) && AllWellFormed(c) && !ev.Shrink? && !ev.Crash?
    requires p in Next(m, group, c, ev).net
    ensures MsgListed(book + Proposed(c.hosts[Actor(ev)].node, ev), p.msg)
  {
    hide Turn, Save, NamesUnique, Proposed;
    var h := c.hosts[Actor(ev)];
    var r := Turn(h.node, ev);
    assert HostListed(book, Actor(ev), h, c.leaders);
    if p in c.net {
      assert MsgListed(book, p.msg);
    } else {
      if ev.Deliver? {
        assert MsgListed(book, ev.packet.msg);
      }
      TurnLists(book, h.node, ev);
      SendsAskedFor(m, r.node, h.disk, r.actions, p);
    }
  }

  lemma ShrinkListed(book: Book, id: Id, h: Host, keepTail: nat, leaders: set<Leadership>)
    requires HostListed(book, id, h, leaders) && HostShape(h)
    ensures HostListed(book, id, ShrinkHost(h, keepTail), leaders)
    ensures Ages(h.node, ShrinkHost(h, keepTail).node)
  {
    hide EntriesFrom, Synced;
    var s, t := h.node, Compact(h.node, keepTail);
    CompactNumbered(s, keepTail);
    ReadsByNumber(s, 0);
    ReadsByNumber(t, 0);
    assert t == s || t.log == s.log[t.baseSeq - s.baseSeq..];
  }

  lemma RestartListed(book: Book, id: Id, h: Host, group: seq<Id>, leaders: set<Leadership>)
    requires HostListed(book, id, h, leaders) && HostShape(h) && CleanDisk(h.disk)
    ensures HostListed(book, id, RestartHost(h, group), leaders)
    ensures Ages(h.node, RestartHost(h, group).node)
  {
    RestartLog(h.disk, h.node);
  }

  lemma RestBooked(m: Machine, group: seq<Id>, c: Cluster, ev: Event, c': Cluster, book: Book)
    requires Booked(c, book) && Shaped(c) && Step(m, group, c, ev, c') && CleanRestart(c, ev) && (ev.Shrink? || ev.Crash?)
    ensures Booked(c', book)
  {
    hide MsgListed, HostListed, Ages, HasLed, HostShape, Contiguous, ShrinkHost, RestartHost, CleanDisk, NamesUnique;
    var id := ev.id;
    var h := c.hosts[id];
    assert HostListed(book, id, h, c.leaders) && HostShape(h);
    if ev.Shrink? {
      ShrinkListed(book, id, h, ev.keepTail, c.leaders);
    } else {
      RestartListed(book, id, h, group, c.leaders);
    }
    forall x | x in c'.hosts
      ensures HostListed(book, x, c'.hosts[x], c'.leaders)
    {
      if x != id {
        assert HostListed(book, x, c.hosts[x], c.leaders);
      }
    }
    forall w | w in c'.leaders
      ensures w.id in c'.hosts && HasLed(c'.hosts[w.id].node, w.epoch)
    {
      assert HasLed(c.hosts[w.id].node, w.epoch);
      if w.id == id {
        LedStays(h.node, c'.hosts[id].node, w.epoch);
      }
    }
  }

  // ---------------------------------------------------------------- whole runs

  lemma {:induction false} RunBooked(m: Machine, group: seq<Id>, cs: seq<Cluster>, evs: seq<Event>) returns (book: Book)
    requires CleanRun(m, group, cs, evs)
    ensures Booked(cs[|evs|], book)
    decreases |evs|
  {
    hide Step, CleanRestart, Shaped, Booked;
    if evs == [] {
      book := {};
      InitBooked(m, group);
    } else {
      var n := |evs| - 1;
      RunPrefix(m, group, cs, evs);
      forall i | 0 <= i < n
        ensures CleanRestart(cs[..n + 1][i], evs[..n][i])
      {
        assert CleanRestart(cs[i], evs[i]);
      }
      book := RunBooked(m, group, cs[..n + 1], evs[..n]);
      RunShape(m, group, cs[..n + 1], evs[..n]);
      ElectionSafety(m, group, cs, evs);
      if evs[n].Shrink? || evs[n].Crash? {
        RestBooked(m, group, cs[n], evs[n], cs[n + 1], book);
      } else {
        StepActor(m, group, cs[n], evs[n], cs[n + 1]);
        TurnBooked(m, group, cs[n], evs[n], cs[n + 1], book);
        book := book + Proposed(cs[n].hosts[Actor(evs[n])].node, evs[n]);
      }
    }
  }

  lemma StepActor(m: Machine, group: seq<Id>, c: Cluster, ev: Event, c': Cluster)
    requires Step(m, group, c, ev, c')
    ensures Actor(ev) in c.hosts
  {
  }

  lemma InitBooked(m: Machine, group: seq<Id>)
    ensures Booked(Init(m, group), {})
  {
  }

  /** Entries of one epoch and one sequence number are equal, on whichever nodes they are found. */
  lemma NamesOneEntry(m: Machine, group: seq<Id>, cs: seq<Cluster>, evs: seq<Event>, x: Id, y: Id, q: nat)
    requires CleanRun(m, group, cs, evs) && x in cs[|evs|].hosts && y in cs[|evs|].hosts
    requires var s, t := cs[|evs|].hosts[x].node, cs[|evs|].hosts[y].node;
             EntryAt(s, q).Some? && EntryAt(t, q).Some? && EntryAt(s, q).value.epoch == EntryAt(t, q).value.epoch
    ensures EntryAt(cs[|evs|].hosts[x].node, q) == EntryAt(cs[|evs|].hosts[y].node, q)
  {
    hide Step, CleanRestart, Init, MsgListed, Contiguous, Synced, ReachesAll;
    var book := RunBooked(m, group, cs, evs);
    RunShape(m, group, cs, evs);
    var c := cs[|evs|];
    var s, t := c.hosts[x].node, c.hosts[y].node;
    assert HostListed(book, x, c.hosts[x], c.leaders) && HostListed(book, y, c.hosts[y], c.leaders);
    assert HostShape(c.hosts[x]) && HostShape(c.hosts[y]);
    ReadsByNumber(s, q);
    ReadsByNumber(t, q);
    assert SameName(EntryAt(s, q).value, EntryAt(t, q).value);
  }
}
