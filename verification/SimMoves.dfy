/** Protocol moves as the concrete node makes them, and the messages a leader sends. */
module SimMoves {
  import opened Options
  import opened Quorum
  import opened Collections
  import opened Groups
  import opened Cluster
  import opened Turns
  import opened Protocol
  import opened ProtocolSteps
  import opened Mirror
  import opened Storage
  import opened Simulation

  ghost predicate Ready(strict: bool, w: World, n: Id) {
    Inv(w) && (strict ==> CommitInv(w)) && n in w.members
  }

  /** What the log of a mirrored member looks like to its node. */
  lemma ReadMember(w: World, n: Id, s: Node)
    requires Inv(w) && n in w.members && SuffixOf(s, w.members[n].log)
    ensures Numbered(w.members[n].log)
    ensures LastSeq(s) == |w.members[n].log| && LastEpochOf(s) == LastEpoch(w.members[n].log)
  {
    assert MemberOK(w, n, w.members[n]);
    ReadLast(s, w.members[n].log);
  }

  /** A move that keeps the log and the commit mark keeps commitment. */
  lemma SameLogMove(strict: bool, w: World, w': World, n: Id)
    requires Ready(strict, w, n) && Inv(w') && Grows(w.h, w'.h) && w'.members.Keys == w.members.Keys
    requires forall x :: x in w.members && x != n ==> w'.members[x] == w.members[x]
    requires w'.members[n].log == w.members[n].log && w'.members[n].commit == w.members[n].commit
    requires w.members[n].epoch <= w'.members[n].epoch
    ensures Moved(strict, w, w', n)
  {
    if strict {
      var s, s' := w.members[n], w'.members[n];
      CommittedPrefixGrows(w, w', s.epoch, s'.epoch, s.log, s'.log, s.commit);
      CommitStep(w, w', n);
    }
  }

  // ---------------------------------------------------------------- following

  ghost function Lower(w: World, n: Id, e: nat): World
    requires n in w.members
  {
    if e > w.members[n].epoch then Bump(w, n, e) else StepDown(w, n)
  }

  lemma LowerMove(strict: bool, w: World, n: Id, s: Node, e: nat)
    requires Ready(strict, w, n) && Mirrors(s, w.members[n]) && VoteBacked(w.h, n, w.members[n])
    ensures var w', s' := Lower(w, n, e), BecomeFollower(s, e).node;
            Moved(strict, w, w', n) && Mirrors(s', w'.members[n]) && VoteBacked(w'.h, n, w'.members[n]) && w'.h == w.h
  {
    if e > w.members[n].epoch {
      BumpKeeps(w, n, e);
    } else {
      StepDownKeeps(w, n);
    }
    SameLogMove(strict, w, Lower(w, n, e), n);
  }

  /** Spend an unused vote on `c`, which deserves it. */
  lemma GrantMove(strict: bool, w: World, n: Id, c: Id)
    requires Ready(strict, w, n) && w.members[n].voted.None?
    ensures Moved(strict, w, Grant(w, n, c), n)
  {
    GrantKeeps(w, n, c);
    assert MemberOK(w, n, w.members[n]);
    SameLogMove(strict, w, Grant(w, n, c), n);
  }

  ghost function Join(w: World, n: Id, c: Id, e: nat): World
    requires n in w.members
  {
    var w1 := Lower(w, n, e);
    if w1.members[n].voted.None? then Grant(w1, n, c) else w1
  }

  /** Following the leader of reign `e`. */
  lemma JoinMove(strict: bool, w: World, n: Id, s: Node, c: Id, e: nat)
    requires Ready(strict, w, n) && Mirrors(s, w.members[n]) && VoteBacked(w.h, n, w.members[n])
    requires s.epoch <= e && e in w.h.reigns && w.h.reigns[e].leader == c
    ensures var w', s' := Join(w, n, c, e), Follow(s, c, e).node;
            && Moved(strict, w, w', n) && Mirrors(s', w'.members[n]) && VoteBacked(w'.h, n, w'.members[n])
            && w'.h.reigns == w.h.reigns && w'.members[n].log == w.members[n].log
            && w'.members[n].epoch == e && w'.members[n].voted.Some? && w'.members[n].standing.Following?
  {
    var w1 := Lower(w, n, e);
    LowerMove(strict, w, n, s, e);
    if w1.members[n].voted.None? {
      GrantMove(strict, w1, n, c);
      MovedTwice(strict, w, w1, Grant(w1, n, c), n);
    }
  }

  // ---------------------------------------------------------------- what a leader sends

  /** The node is the leader the world has in its epoch. */
  ghost predicate LeadsIn(strict: bool, w: World, s: Node) {
    && s.me in w.members && s.role.Leader? && WellFormed(s)
    && Mirrors(s, w.members[s.me])
    && (strict ==> CommittedPrefix(w, s.epoch, w.members[s.me].log, s.commit))
    && (strict ==> forall i :: 0 <= i < |s.role.next| ==> s.role.next[i].at <= |w.members[s.me].log| + 1)
    && (!strict ==> s.baseSeq == 0)
    && (forall x :: x in s.group ==> x in w.members)
  }

  /** An Append carries the whole tail of the log; beyond its end it carries nothing. */
  lemma ReplicateMsg(s: Node, full: seq<Entry>, p: Progress)
    requires SuffixOf(s, full) && Numbered(full) && p.at > s.baseSeq
    ensures var prev := p.at - 1;
            ReplicateOne(s, p) == Send(p.id,
              if prev <= |full| then Append(s.epoch, prev, if prev == 0 then 0 else full[prev - 1].epoch, full[prev..], s.commit)
              else Append(s.epoch, prev, 0, [], s.commit))
  {
    hide Numbered, EntriesFrom, SuffixOf, EpochAt;
    var prev := p.at - 1;
    ReadAt(s, full, prev);
    TailOf(s, full, prev);
  }

  lemma TailOf(s: Node, full: seq<Entry>, prev: nat)
    requires SuffixOf(s, full) && Numbered(full) && s.baseSeq <= prev
    ensures EntriesFrom(s.log, prev + 1) == if prev <= |full| then full[prev..] else []
    ensures s.baseSeq <= |full|
  {
    hide Numbered, EntriesFrom;
    SuffixNumbered(s, full);
    EntriesFromSuffix(s.log, s.baseSeq, prev + 1);
    if prev <= |full| {
      DropTwice(full, s.baseSeq, prev);
    }
  }

  lemma DropTwice(full: seq<Entry>, a: nat, b: nat)
    requires a <= b <= |full|
    ensures full[a..][b - a..] == full[b..]
  {
  }

  /** The tail of a reign from any point on is a faithful Append. */
  lemma TailOK(strict: bool, w: World, id: Id, e: nat, prev: nat, commit: nat)
    requires Inv(w) && e in w.h.reigns && w.h.reigns[e].leader == id
    requires strict ==> prev <= |w.h.reigns[e].log| && CommittedPrefix(w, e, w.h.reigns[e].log, commit)
    ensures var log := w.h.reigns[e].log;
            AppendOK(strict, w, id,
              if prev <= |log| then Append(e, prev, if prev == 0 then 0 else log[prev - 1].epoch, log[prev..], commit)
              else Append(e, prev, 0, [], commit))
  {
    var r := w.h.reigns[e];
    assert ReignOK(w, e, r);
    if prev <= |r.log| {
      assert Slice(w, Append(e, prev, if prev == 0 then 0 else r.log[prev - 1].epoch, r.log[prev..], commit));
    }
  }

  lemma LeadingMember(w: World, n: Id)
    requires Inv(w) && n in w.members && w.members[n].standing.Leading?
    ensures LeadsReign(w, n) && Numbered(w.members[n].log)
  {
    assert MemberOK(w, n, w.members[n]);
  }

  lemma ReplicateOneOK(strict: bool, m: Machine, w: World, s: Node, p: Progress)
    requires Inv(w) && LeadsIn(strict, w, s)
    requires p.at > 0 && p.id in w.members && p.id != s.me
    requires strict ==> p.at <= |w.members[s.me].log| + 1
    ensures SendOK(strict, m, w, s.me, ReplicateOne(s, p))
  {
    hide Inv, AppendOK, CommittedPrefix, EntriesFrom, ReplicateOne, SuffixOf, Numbered;
    var a := w.members[s.me];
    LeadingMember(w, s.me);
    if p.at > s.baseSeq {
      ReplicateMsg(s, a.log, p);
      TailOK(strict, w, s.me, s.epoch, p.at - 1, s.commit);
    } else {
      BelowBase(s, p);
    }
  }

  lemma BelowBase(s: Node, p: Progress)
    requires 0 < p.at <= s.baseSeq
    ensures ReplicateOne(s, p) == NeedSnapshot(p.id)
  {
  }

  lemma {:induction false} ReplicateOK(strict: bool, m: Machine, w: World, s: Node, next: seq<Progress>)
    requires Inv(w) && LeadsIn(strict, w, s) && AllPositive(next)
    requires forall i :: 0 <= i < |next| ==> next[i].id in w.members && next[i].id != s.me
    requires strict ==> forall i :: 0 <= i < |next| ==> next[i].at <= |w.members[s.me].log| + 1
    ensures SendsOK(strict, m, w, s.me, Replicate(s, next))
    decreases |next|
  {
    if next != [] {
      ReplicateOneOK(strict, m, w, s, next[0]);
      ReplicateOK(strict, m, w, s, next[1..]);
    }
  }

  lemma ReplicateAllOK(strict: bool, m: Machine, w: World, s: Node)
    requires Inv(w) && LeadsIn(strict, w, s)
    ensures SendsOK(strict, m, w, s.me, ReplicateAll(s))
  {
    OthersShape(s.group, s.me);
    forall i | 0 <= i < |s.role.next|
      ensures s.role.next[i].id in w.members && s.role.next[i].id != s.me
    {
      assert s.role.next[i].id == Others(s.group, s.me)[i];
      assert s.role.next[i].id in Others(s.group, s.me);
    }
    ReplicateOK(strict, m, w, s, s.role.next);
  }

  // ---------------------------------------------------------------- winning

  lemma GroupSize(w: World, group: seq<Id>)
    requires GroupOK(group, w)
    ensures |w.members| == |group|
  {
    NoRepeatsSize(group);
    var all := set x | x in group;
    forall x
      ensures x in w.members.Keys <==> x in all
    {
      assert x in w.members <==> x in group;
    }
    assert w.members.Keys == all;
    assert |w.members| == |w.members.Keys|;
  }

  /** A candidate of the concrete cluster wins exactly when the protocol lets it. */
  lemma TryWinMove(strict: bool, m: Machine, group: seq<Id>, w: World, s: Node) returns (w': World)
    requires Ready(strict, w, s.me) && Mirrors(s, w.members[s.me]) && WellFormed(s) && s.role.Candidate?
    requires s.group == Sort(group) && GroupOK(group, w) && VoteBacked(w.h, s.me, w.members[s.me])
    requires !strict ==> s.baseSeq == 0
    ensures Moved(strict, w, w', s.me) && VoteBacked(w'.h, s.me, w'.members[s.me])
    ensures w'.members[s.me].log == w.members[s.me].log && w'.members[s.me].voted == w.members[s.me].voted
    ensures w'.members[s.me].epoch == w.members[s.me].epoch && w'.h.votes == w.h.votes && w'.h.bids == w.h.bids
    ensures Mirrors(TryWin(s).node, w'.members[s.me])
    ensures SendsOK(strict, m, w', s.me, TryWin(s).actions)
    ensures RowsOK(w'.h, TryWin(s).node, w'.members[s.me].log) && Settled(TryWin(s).node)
    ensures TryWin(s).node.role.Leader? ==> LeadsIn(strict, w', TryWin(s).node)
  {
    hide Replicate, EntriesFrom, ReplicateOne, CommittedPrefix, SuffixOf;
    var a := w.members[s.me];
    assert MemberOK(w, s.me, a);
    w' := w;
    if |s.role.votes| >= MajorityOf(s) {
      SortedGroup(group);
      GroupSize(w, group);
      NoRepeatsSize(s.role.votes);
      WinKeeps(w, s.me);
      w' := Win(w, s.me);
      CandidateLog(w, s.me);
      assert Grows(w.h, w'.h);
      SameLogMove(strict, w, w', s.me);
      WonNode(strict, m, w', s);
    }
  }

  lemma CandidateLog(w: World, n: Id)
    requires Inv(w) && n in w.members && w.members[n].standing.Running?
    requires IsQuorum(w, w.members[n].standing.votes)
    ensures w.members[n].epoch > 0 && EpochsAtMost(w.members[n].log, w.members[n].epoch - 1)
    ensures w.members[n].epoch !in w.h.reigns
  {
    var s := w.members[n];
    assert MemberOK(w, n, s);
    assert BidOK(w.h, Ballot(n, s.epoch), w.h.bids[Ballot(n, s.epoch)]);
    if s.epoch in w.h.reigns {
      forall v | v in s.standing.votes
        ensures Ballot(v, s.epoch) in w.h.votes && w.h.votes[Ballot(v, s.epoch)].candidate == n
      {
        assert VoteOK(w.h, v, s.epoch, n, s.log);
      }
      OneLeaderPerEpoch(w, n, s.standing.votes, s.epoch);
    }
  }

  lemma WonNode(strict: bool, m: Machine, w': World, s: Node)
    requires Inv(w') && (strict ==> CommitInv(w')) && s.me in w'.members && s.role.Candidate? && WellFormed(s)
    requires |s.role.votes| >= MajorityOf(s) && s.epoch > 0
    requires var a := w'.members[s.me];
             s.epoch == a.epoch && s.votedFor == a.voted && s.commit == a.commit && SuffixOf(s, a.log) && a.standing.Leading?
    requires EpochsAtMost(w'.members[s.me].log, s.epoch - 1)
    requires forall x :: x in s.group ==> x in w'.members
    requires !strict ==> s.baseSeq == 0
    ensures var t := TryWin(s).node;
            && Mirrors(t, w'.members[s.me]) && LeadsIn(strict, w', t)
            && SendsOK(strict, m, w', s.me, TryWin(s).actions)
            && RowsOK(w'.h, t, w'.members[s.me].log) && Settled(t)
  {
    var a := w'.members[s.me];
    var t := TryWin(s).node;
    assert MemberOK(w', s.me, a);
    FreshLeader(s, a.log);
    ReplicateAllOK(strict, m, w', t);
  }

  /** A node that just won points every peer past its log, counts no acknowledgement and has nothing to commit. */
  lemma FreshLeader(s: Node, full: seq<Entry>)
    requires s.role.Candidate? && WellFormed(s) && |s.role.votes| >= MajorityOf(s) && s.epoch > 0
    requires SuffixOf(s, full) && Numbered(full) && EpochsAtMost(full, s.epoch - 1)
    ensures var t := TryWin(s).node;
            && t == s.(role := t.role) && t.role.Leader?
            && RowsFor(t.role.next, Others(s.group, s.me)) && RowsFor(t.role.matched, Others(s.group, s.me))
            && (forall i :: 0 <= i < |t.role.next| ==> t.role.next[i].at == |full| + 1)
            && (forall i :: 0 <= i < |t.role.matched| ==> t.role.matched[i].at == 0)
            && Settled(t)
  {
    hide TrackEach, TryWin, Settled;
    var t := TryWin(s).node;
    var peers := Others(s.group, s.me);
    TryWinIs(s);
    ReadLast(s, full);
    TrackEachAt(peers, LastSeq(s) + 1);
    TrackEachAt(peers, 0);
    NothingToCommit(t, full);
  }

  lemma TryWinIs(s: Node)
    requires s.role.Candidate? && WellFormed(s) && |s.role.votes| >= MajorityOf(s)
    ensures var peers := Others(s.group, s.me);
            TryWin(s).node == s.(role := Leader(TrackEach(peers, LastSeq(s) + 1), TrackEach(peers, 0)))
  {
    hide TrackEach, Others, Replicate;
  }

  lemma NothingToCommit(t: Node, full: seq<Entry>)
    requires SuffixOf(t, full) && t.epoch > 0 && EpochsAtMost(full, t.epoch - 1)
    ensures Settled(t)
  {
    forall q | t.commit < q <= LastSeq(t)
      ensures !(EntryAt(t, q).Some? && EntryAt(t, q).value.epoch == t.epoch)
    {
      ReadAt(t, full, q);
    }
  }
}
