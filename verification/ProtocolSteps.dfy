/**
The steps of the protocol, and the proof that each keeps the invariant.

A handler of the concrete member is one of these steps or a short sequence of
them; a crash and restart is `StepDown` followed by `SetCommit`.
*/
module ProtocolSteps {
  import opened Options
  import opened Quorum
  import opened Collections
  import opened Protocol

  // ---------------------------------------------------------------- steps

  /** A higher epoch was seen: forget the vote and follow. */
  ghost function Bump(w: World, n: Id, e: nat): World
    requires n in w.members
  {
    w.(members := w.members[n := w.members[n].(epoch := e, voted := None, standing := Following)])
  }

  ghost function StepDown(w: World, n: Id): World
    requires n in w.members
  {
    w.(members := w.members[n := w.members[n].(standing := Following)])
  }

  /** The election timeout fired. */
  ghost function Run(w: World, n: Id): World
    requires n in w.members
  {
    var s := w.members[n];
    var b := Ballot(n, s.epoch + 1);
    World(w.members[n := s.(epoch := s.epoch + 1, voted := Some(n), standing := Running({n}))],
          w.h.(votes := w.h.votes[b := Vote(n, s.log)], bids := w.h.bids[b := s.log]))
  }

  /** An unused vote is spent on `c`. */
  ghost function Grant(w: World, n: Id, c: Id): World
    requires n in w.members
  {
    var s := w.members[n];
    World(w.members[n := s.(voted := Some(c))],
          w.h.(votes := w.h.votes[Ballot(n, s.epoch) := Vote(c, s.log)]))
  }

  /** A candidate counts the vote of `v`. */
  ghost function Collect(w: World, n: Id, v: Id): World
    requires n in w.members && w.members[n].standing.Running?
  {
    var s := w.members[n];
    w.(members := w.members[n := s.(standing := Running(s.standing.votes + {v}))])
  }

  ghost function Win(w: World, n: Id): World
    requires n in w.members && w.members[n].standing.Running?
  {
    var s := w.members[n];
    World(w.members[n := s.(standing := Leading)],
          w.h.(reigns := w.h.reigns[s.epoch := Reign(n, s.standing.votes, s.log, s.log)]))
  }

  /** A leader creates the next entry and counts itself as holding it. */
  ghost function Create(w: World, n: Id, cmd: Command): World
    requires n in w.members && w.members[n].epoch in w.h.reigns
  {
    var s := w.members[n];
    var log := s.log + [Entry(s.epoch, |s.log| + 1, cmd)];
    World(w.members[n := s.(log := log)],
          w.h.(reigns := w.h.reigns[s.epoch := w.h.reigns[s.epoch].(log := log)],
               acks := w.h.acks[Ballot(n, s.epoch) := |log|]))
  }

  /** A follower adopts the first `k` entries of its epoch's reign and truthfully acknowledges `m`. */
  ghost function Accept(w: World, n: Id, k: nat, m: nat): World
    requires n in w.members && w.members[n].epoch in w.h.reigns && k <= |w.h.reigns[w.members[n].epoch].log|
  {
    var s := w.members[n];
    var b := Ballot(n, s.epoch);
    var m' := if b in w.h.acks && w.h.acks[b] > m then w.h.acks[b] else m;
    World(w.members[n := s.(log := Adopt(s.log, w.h.reigns[s.epoch].log[..k]))],
          w.h.(acks := w.h.acks[b := m']))
  }

  ghost function SetCommit(w: World, n: Id, c: nat): World
    requires n in w.members
  {
    w.(members := w.members[n := w.members[n].(commit := c)])
  }

  // ---------------------------------------------------------------- growth

  predicate Prolongs(r: Reign, r': Reign) {
    r'.leader == r.leader && r'.voters == r.voters && r'.start == r.start && r.log <= r'.log
  }

  ghost predicate Grows(h: History, h': History) {
    && (forall b :: b in h.votes ==> b in h'.votes && h'.votes[b] == h.votes[b])
    && (forall b :: b in h.bids ==> b in h'.bids && h'.bids[b] == h.bids[b])
    && (forall e :: e in h.reigns ==> e in h'.reigns && Prolongs(h.reigns[e], h'.reigns[e]))
    && (forall b :: b in h.acks ==> b in h'.acks && h'.acks[b] >= h.acks[b])
  }

  lemma LogOKGrows(h: History, h': History, log: seq<Entry>)
    requires Grows(h, h') && LogOK(h, log)
    ensures LogOK(h', log)
  {
    forall i | 0 <= i < |log|
      ensures Rooted(h', log, i)
    {
      assert Rooted(h, log, i);
    }
  }

  lemma ReignOKGrows(w: World, w': World, e: nat, r: Reign)
    requires Grows(w.h, w'.h) && w.members.Keys == w'.members.Keys
    requires ReignOK(w, e, r)
    ensures ReignOK(w', e, r)
  {
    LogOKGrows(w.h, w'.h, r.log);
    assert |w.members| == |w.members.Keys| && |w'.members| == |w'.members.Keys|;
    forall v | v in r.voters
      ensures VoteOK(w'.h, v, e, r.leader, r.start)
    {
      assert VoteOK(w.h, v, e, r.leader, r.start);
    }
  }

  /** Ballots of member `n` are the same in both histories. */
  ghost predicate SameBallots(h: History, h': History, n: Id) {
    && (forall b :: b in h'.votes && b.id == n ==> b in h.votes)
    && (forall b :: b in h'.bids && b.id == n ==> b in h.bids)
    && (forall b :: b in h'.acks && b.id == n ==> b in h.acks)
  }

  ghost predicate SameReign(h: History, h': History, e: nat) {
    (e in h.reigns <==> e in h'.reigns) && (e in h.reigns ==> h.reigns[e] == h'.reigns[e])
  }

  lemma StandingGrows(w: World, w': World, n: Id, s: Member)
    requires Grows(w.h, w'.h) && w.members.Keys == w'.members.Keys
    requires SameReign(w.h, w'.h, s.epoch)
             || (!s.standing.Leading? && s.epoch in w'.h.reigns && w'.h.reigns[s.epoch].leader != n)
    requires StandingOK(w, n, s)
    ensures StandingOK(w', n, s)
  {
    if s.standing.Running? {
      forall v | v in s.standing.votes
        ensures VoteOK(w'.h, v, s.epoch, n, s.log)
      {
        assert VoteOK(w.h, v, s.epoch, n, s.log);
      }
    }
  }

  lemma HeldGrows(h: History, h': History, b: Ballot, log: seq<Entry>, hi: nat, hi': nat)
    requires Grows(h, h') && Held(h, b, log, hi) && hi <= hi'
    requires h'.acks[b] == h.acks[b]
    ensures Held(h', b, log, hi')
  {
    forall k | 0 <= k <= h.acks[b]
      ensures h'.reigns[b.epoch].log[..k] <= log || Lost(h', b.epoch, k, hi')
    {
      var p := h.reigns[b.epoch].log[..k];
      assert p == h'.reigns[b.epoch].log[..k];
      if !(p <= log) {
        LostGrows(h, h', b.epoch, k, hi, hi');
      }
    }
  }

  lemma LostGrows(h: History, h': History, e: nat, k: nat, hi: nat, hi': nat)
    requires Grows(h, h') && Lost(h, e, k, hi) && hi <= hi'
    ensures Lost(h', e, k, hi')
  {
    var e2 :| e2 in h.reigns && e < e2 < hi && !(h.reigns[e].log[..k] <= h.reigns[e2].start);
    assert h'.reigns[e].log[..k] == h.reigns[e].log[..k];
    assert e2 in h'.reigns && h'.reigns[e2].start == h.reigns[e2].start;
  }

  lemma BidsGrow(h: History, h': History)
    requires BidsOK(h) && Grows(h, h')
    requires forall b :: b in h'.bids && b !in h.bids ==> BidOK(h', b, h'.bids[b])
    ensures BidsOK(h')
  {
    forall b | b in h'.bids
      ensures BidOK(h', b, h'.bids[b])
    {
      if b in h.bids {
        assert BidOK(h, b, h.bids[b]);
        LogOKGrows(h, h', h.bids[b]);
      }
    }
  }

  lemma VotesGrow(h: History, h': History)
    requires VotesOK(h) && Grows(h, h')
    requires forall b :: b in h'.votes && b !in h.votes ==> LogOK(h', h'.votes[b].log)
    ensures VotesOK(h')
  {
    forall b | b in h'.votes
      ensures LogOK(h', h'.votes[b].log)
    {
      if b in h.votes {
        assert LogOK(h, h.votes[b].log);
        LogOKGrows(h, h', h.votes[b].log);
      }
    }
  }

  lemma ReignsGrow(w: World, w': World, e0: nat)
    requires ReignsOK(w) && Grows(w.h, w'.h) && w'.members.Keys == w.members.Keys
    requires forall e :: e in w'.h.reigns && e != e0 ==> e in w.h.reigns && w'.h.reigns[e] == w.h.reigns[e]
    requires e0 in w'.h.reigns ==> ReignOK(w', e0, w'.h.reigns[e0])
    ensures ReignsOK(w')
  {
    forall e | e in w'.h.reigns
      ensures ReignOK(w', e, w'.h.reigns[e])
    {
      if e != e0 {
        assert ReignOK(w, e, w.h.reigns[e]);
        ReignOKGrows(w, w', e, w.h.reigns[e]);
      }
    }
  }

  lemma SameReignsGrow(w: World, w': World)
    requires ReignsOK(w) && Grows(w.h, w'.h) && w'.members.Keys == w.members.Keys
    requires w'.h.reigns == w.h.reigns
    ensures ReignsOK(w')
  {
    forall e | e in w'.h.reigns
      ensures ReignOK(w', e, w'.h.reigns[e])
    {
      assert ReignOK(w, e, w.h.reigns[e]);
      ReignOKGrows(w, w', e, w.h.reigns[e]);
    }
  }

  lemma AcksGrow(w: World, w': World)
    requires AcksOK(w) && Grows(w.h, w'.h) && w'.members.Keys == w.members.Keys
    requires forall b :: b in w'.h.acks && (b !in w.h.acks || w'.h.acks[b] != w.h.acks[b]) ==> AckOK(w', b, w'.h.acks[b])
    ensures AcksOK(w')
  {
    forall b | b in w'.h.acks
      ensures AckOK(w', b, w'.h.acks[b])
    {
      if b in w.h.acks {
        assert AckOK(w, b, w.h.acks[b]);
      }
    }
  }

  /** Members other than `n` are untouched by a step of `n`. */
  lemma OthersGrow(w: World, w': World, n: Id, m: Id)
    requires Recorded(w) && Grows(w.h, w'.h) && w.members.Keys == w'.members.Keys
    requires m in w.members && m != n && w'.members[m] == w.members[m]
    requires SameBallots(w.h, w'.h, m)
    requires SameReign(w.h, w'.h, w.members[m].epoch)
             || (!w.members[m].standing.Leading? && w.members[m].epoch in w'.h.reigns && w'.h.reigns[w.members[m].epoch].leader == n)
    ensures MemberOK(w', m, w'.members[m])
  {
    var s := w.members[m];
    assert MemberOK(w, m, s);
    LogOKGrows(w.h, w'.h, s.log);
    StandingGrows(w, w', m, s);
  }

  /** A step of member `n` that changes no reign a member leads but its own. */
  lemma MembersGrow(w: World, w': World, n: Id)
    requires Recorded(w) && Grows(w.h, w'.h) && w.members.Keys == w'.members.Keys && n in w.members
    requires forall m :: m in w.members && m != n ==> w'.members[m] == w.members[m] && SameBallots(w.h, w'.h, m)
    requires forall e :: e in w'.h.reigns ==> SameReign(w.h, w'.h, e) || w'.h.reigns[e].leader == n
    requires MemberOK(w', n, w'.members[n])
    ensures MembersOK(w')
  {
    forall m | m in w'.members
      ensures MemberOK(w', m, w'.members[m])
    {
      if m != n {
        assert MemberOK(w, m, w.members[m]);
        OthersGrow(w, w', n, m);
      }
    }
  }

  // ---------------------------------------------------------------- preservation

  /** A step that leaves the history and the log of member `n` alone. */
  lemma LocalStep(w: World, w': World, n: Id)
    requires Inv(w) && n in w.members && n in w'.members
    requires w' == w.(members := w.members[n := w'.members[n]])
    requires w'.members[n].log == w.members[n].log
    requires w.members[n].epoch <= w'.members[n].epoch && Horizon(w.members[n]) <= Horizon(w'.members[n])
    requires BallotsOK(w.h, n, w'.members[n]) && StandingOK(w', n, w'.members[n])
    ensures Inv(w')
  {
    assert w'.members.Keys == w.members.Keys;
    SameReignsGrow(w, w');
    AcksGrow(w, w');
    assert MemberOK(w, n, w.members[n]);
    MembersGrow(w, w', n);
    DurableStep(w, w', n);
  }

  /** The acknowledgements stay held when a step leaves them and the votes and logs alone. */
  lemma DurableStep(w: World, w': World, n: Id)
    requires Inv(w) && n in w.members
    requires w'.h == w.h && w'.members.Keys == w.members.Keys
    requires forall m :: m in w.members && m != n ==> w'.members[m] == w.members[m]
    requires w'.members[n].log == w.members[n].log
    requires Horizon(w.members[n]) <= Horizon(w'.members[n])
    ensures Durable(w')
  {
    forall b | b in w'.h.acks
      ensures b.id in w'.members && Held(w'.h, b, w'.members[b.id].log, Horizon(w'.members[b.id]))
    {
      assert AckOK(w, b, w.h.acks[b]);
      assert Held(w.h, b, w.members[b.id].log, Horizon(w.members[b.id]));
      HeldGrows(w.h, w'.h, b, w.members[b.id].log, Horizon(w.members[b.id]), Horizon(w'.members[b.id]));
    }
    forall b, v | b in w'.h.acks && v in w'.h.votes && b.id == v.id && b.epoch < v.epoch
      ensures Held(w'.h, b, w'.h.votes[v].log, v.epoch)
    {
      assert Held(w.h, b, w.h.votes[v].log, v.epoch);
    }
  }

  lemma BumpKeeps(w: World, n: Id, e: nat)
    requires Inv(w) && n in w.members && w.members[n].epoch < e
    ensures Inv(Bump(w, n, e))
  {
    assert MemberOK(w, n, w.members[n]);
    LocalStep(w, Bump(w, n, e), n);
  }

  lemma StepDownKeeps(w: World, n: Id)
    requires Inv(w) && n in w.members
    ensures Inv(StepDown(w, n))
  {
    assert MemberOK(w, n, w.members[n]);
    LocalStep(w, StepDown(w, n), n);
  }

  lemma CollectKeeps(w: World, n: Id, v: Id)
    requires Inv(w) && n in w.members && w.members[n].standing.Running?
    requires v in w.members && VoteOK(w.h, v, w.members[n].epoch, n, w.members[n].log)
    ensures Inv(Collect(w, n, v))
  {
    assert MemberOK(w, n, w.members[n]);
    LocalStep(w, Collect(w, n, v), n);
  }

  lemma SetCommitKeeps(w: World, n: Id, c: nat)
    requires Inv(w) && n in w.members
    ensures Inv(SetCommit(w, n, c))
  {
    var w' := SetCommit(w, n, c);
    assert MemberOK(w, n, w.members[n]);
    StandingGrows(w, w', n, w.members[n]);
    LocalStep(w, w', n);
  }

  /** A new vote is recorded with the log the voter holds at that moment. */
  lemma VoteStep(w: World, w': World, n: Id)
    requires Inv(w) && n in w.members && n in w'.members
    requires w'.members == w.members[n := w'.members[n]]
    requires w'.members[n].log == w.members[n].log
    requires w.members[n].epoch <= w'.members[n].epoch && w'.members[n].voted.Some?
    requires Ballot(n, w'.members[n].epoch) !in w.h.votes
    requires w'.h.votes == w.h.votes[Ballot(n, w'.members[n].epoch) := Vote(w'.members[n].voted.value, w.members[n].log)]
    requires w'.h.acks == w.h.acks && w'.h.reigns == w.h.reigns
    requires Grows(w.h, w'.h)
    requires forall b :: b in w'.h.bids && b !in w.h.bids ==> b == Ballot(n, w'.members[n].epoch) && BidOK(w'.h, b, w'.h.bids[b])
    requires StandingOK(w', n, w'.members[n])
    requires Horizon(w.members[n]) <= w'.members[n].epoch
    ensures Inv(w')
  {
    var s, s' := w.members[n], w'.members[n];
    assert MemberOK(w, n, s);
    LogOKGrows(w.h, w'.h, s.log);
    SameReignsGrow(w, w');
    AcksGrow(w, w');
    BidsGrow(w.h, w'.h);
    VotesGrow(w.h, w'.h);
    MembersGrow(w, w', n);
    VoteDurable(w, w', n);
  }

  lemma VoteDurable(w: World, w': World, n: Id)
    requires Inv(w) && n in w.members && n in w'.members
    requires w'.members == w.members[n := w'.members[n]]
    requires w'.members[n].log == w.members[n].log
    requires w'.members[n].voted.Some? && Ballot(n, w'.members[n].epoch) !in w.h.votes
    requires w'.h.votes == w.h.votes[Ballot(n, w'.members[n].epoch) := Vote(w'.members[n].voted.value, w.members[n].log)]
    requires w'.h.acks == w.h.acks && Grows(w.h, w'.h)
    requires Horizon(w.members[n]) <= w'.members[n].epoch
    ensures Durable(w')
  {
    var s := w.members[n];
    forall b | b in w'.h.acks
      ensures b.id in w'.members && Held(w'.h, b, w'.members[b.id].log, Horizon(w'.members[b.id]))
    {
      assert AckOK(w, b, w.h.acks[b]);
      assert Held(w.h, b, w.members[b.id].log, Horizon(w.members[b.id]));
      HeldGrows(w.h, w'.h, b, w.members[b.id].log, Horizon(w.members[b.id]), Horizon(w'.members[b.id]));
    }
    forall b, v | b in w'.h.acks && v in w'.h.votes && b.id == v.id && b.epoch < v.epoch
      ensures Held(w'.h, b, w'.h.votes[v].log, v.epoch)
    {
      if v in w.h.votes {
        assert Held(w.h, b, w.h.votes[v].log, v.epoch);
        HeldGrows(w.h, w'.h, b, w.h.votes[v].log, v.epoch, v.epoch);
      } else {
        assert Held(w.h, b, w.members[b.id].log, Horizon(w.members[b.id]));
        HeldGrows(w.h, w'.h, b, s.log, Horizon(s), v.epoch);
      }
    }
  }

  lemma RunKeeps(w: World, n: Id)
    requires Inv(w) && n in w.members
    ensures Inv(Run(w, n))
  {
    var w' := Run(w, n);
    var s := w.members[n];
    assert MemberOK(w, n, s);
    assert Grows(w.h, w'.h);
    LogOKGrows(w.h, w'.h, s.log);
    assert VoteOK(w'.h, n, s.epoch + 1, n, s.log);
    if s.epoch + 1 in w.h.reigns {
      assert ReignOK(w, s.epoch + 1, w.h.reigns[s.epoch + 1]);
    }
    VoteStep(w, w', n);
  }

  lemma GrantKeeps(w: World, n: Id, c: Id)
    requires Inv(w) && n in w.members && w.members[n].voted.None?
    ensures Inv(Grant(w, n, c))
  {
    var w' := Grant(w, n, c);
    var s := w.members[n];
    assert MemberOK(w, n, s);
    assert Grows(w.h, w'.h);
    StandingGrows(w, w', n, s);
    VoteStep(w, w', n);
  }

  lemma WinKeeps(w: World, n: Id)
    requires Inv(w) && n in w.members && w.members[n].standing.Running?
    requires IsQuorum(w, w.members[n].standing.votes)
    ensures Inv(Win(w, n))
  {
    var w' := Win(w, n);
    var s := w.members[n];
    assert MemberOK(w, n, s);
    if s.epoch in w.h.reigns {
      forall v | v in s.standing.votes
        ensures Ballot(v, s.epoch) in w.h.votes && w.h.votes[Ballot(v, s.epoch)].candidate == n
      {
        assert VoteOK(w.h, v, s.epoch, n, s.log);
      }
      OneLeaderPerEpoch(w, n, s.standing.votes, s.epoch);
      assert false;
    }
    assert Grows(w.h, w'.h);
    assert w.members.Keys == w'.members.Keys;
    LogOKGrows(w.h, w'.h, s.log);
    NewReignOK(w, w', n);
    ReignsGrow(w, w', s.epoch);
    AcksGrow(w, w');
    BidsGrow(w.h, w'.h);
    VotesGrow(w.h, w'.h);
    MembersGrow(w, w', n);
    DurableGrows(w, w');
  }

  lemma NewReignOK(w: World, w': World, n: Id)
    requires Inv(w) && n in w.members && w.members[n].standing.Running? && w' == Win(w, n)
    requires w.members[n].epoch !in w.h.reigns
    requires IsQuorum(w, w.members[n].standing.votes)
    ensures ReignOK(w', w.members[n].epoch, w'.h.reigns[w.members[n].epoch])
  {
    var s := w.members[n];
    assert MemberOK(w, n, s);
    assert Grows(w.h, w'.h);
    LogOKGrows(w.h, w'.h, s.log);
    assert BidOK(w.h, Ballot(n, s.epoch), w.h.bids[Ballot(n, s.epoch)]);
    assert w.members.Keys == w'.members.Keys;
    assert |w.members| == |w.members.Keys| && |w'.members| == |w'.members.Keys|;
    forall v | v in s.standing.votes
      ensures VoteOK(w'.h, v, s.epoch, n, s.log)
    {
      assert VoteOK(w.h, v, s.epoch, n, s.log);
    }
  }

  /** Acknowledgements stay held when the history grows and no log, vote or acknowledgement changes. */
  lemma DurableGrows(w: World, w': World)
    requires Inv(w) && Grows(w.h, w'.h) && w'.members.Keys == w.members.Keys
    requires w'.h.acks == w.h.acks && w'.h.votes == w.h.votes
    requires forall m :: m in w.members ==> w'.members[m].log == w.members[m].log && Horizon(w'.members[m]) == Horizon(w.members[m])
    ensures Durable(w')
  {
    forall b | b in w'.h.acks
      ensures b.id in w'.members && Held(w'.h, b, w'.members[b.id].log, Horizon(w'.members[b.id]))
    {
      assert AckOK(w, b, w.h.acks[b]);
      assert Held(w.h, b, w.members[b.id].log, Horizon(w.members[b.id]));
      HeldGrows(w.h, w'.h, b, w.members[b.id].log, Horizon(w.members[b.id]), Horizon(w'.members[b.id]));
    }
    forall b, v | b in w'.h.acks && v in w'.h.votes && b.id == v.id && b.epoch < v.epoch
      ensures Held(w'.h, b, w'.h.votes[v].log, v.epoch)
    {
      assert Held(w.h, b, w.h.votes[v].log, v.epoch);
      HeldGrows(w.h, w'.h, b, w.h.votes[v].log, v.epoch, v.epoch);
    }
  }

  lemma CreateKeeps(w: World, n: Id, cmd: Command)
    requires Inv(w) && n in w.members && w.members[n].standing.Leading? && w.members[n].epoch in w.h.reigns
    ensures Inv(Create(w, n, cmd))
  {
    var w' := Create(w, n, cmd);
    var s, s' := w.members[n], w'.members[n];
    var e := s.epoch;
    assert MemberOK(w, n, s);
    assert ReignOK(w, e, w.h.reigns[e]);
    CreateGrows(w, n, cmd);
    assert w.members.Keys == w'.members.Keys;
    CreatedReignOK(w, n, cmd);
    ReignsGrow(w, w', e);
    AcksGrow(w, w');
    BidsGrow(w.h, w'.h);
    VotesGrow(w.h, w'.h);
    MembersGrow(w, w', n);
    CreateDurable(w, n, cmd);
  }

  lemma CreateGrows(w: World, n: Id, cmd: Command)
    requires Inv(w) && n in w.members && w.members[n].standing.Leading? && w.members[n].epoch in w.h.reigns
    ensures Grows(w.h, Create(w, n, cmd).h)
  {
    var b := Ballot(n, w.members[n].epoch);
    assert MemberOK(w, n, w.members[n]);
    if b in w.h.acks {
      assert AckOK(w, b, w.h.acks[b]);
    }
  }

  lemma CreatedReignOK(w: World, n: Id, cmd: Command)
    requires Inv(w) && n in w.members && w.members[n].standing.Leading? && w.members[n].epoch in w.h.reigns
    ensures ReignOK(Create(w, n, cmd), w.members[n].epoch, Create(w, n, cmd).h.reigns[w.members[n].epoch])
    ensures LogOK(Create(w, n, cmd).h, Create(w, n, cmd).members[n].log)
  {
    var w' := Create(w, n, cmd);
    var s := w.members[n];
    var e, log := s.epoch, w'.members[n].log;
    assert MemberOK(w, n, s);
    var r := w.h.reigns[e];
    assert ReignOK(w, e, r);
    CreateGrows(w, n, cmd);
    assert w.members.Keys == w'.members.Keys;
    ReignOKGrows(w, w', e, r);
    forall i | 0 <= i < |log|
      ensures Rooted(w'.h, log, i)
    {
      if i < |s.log| {
        assert Rooted(w'.h, s.log, i);
        assert log[..i + 1] == s.log[..i + 1];
      }
    }
  }

  lemma CreateDurable(w: World, n: Id, cmd: Command)
    requires Inv(w) && n in w.members && w.members[n].standing.Leading? && w.members[n].epoch in w.h.reigns
    ensures Durable(Create(w, n, cmd))
  {
    var w' := Create(w, n, cmd);
    var s := w.members[n];
    var own := Ballot(n, s.epoch);
    assert MemberOK(w, n, s);
    CreateGrows(w, n, cmd);
    forall b | b in w'.h.acks
      ensures b.id in w'.members && Held(w'.h, b, w'.members[b.id].log, Horizon(w'.members[b.id]))
    {
      if b != own {
        assert AckOK(w, b, w.h.acks[b]);
        assert Held(w.h, b, w.members[b.id].log, Horizon(w.members[b.id]));
        HeldGrows(w.h, w'.h, b, w.members[b.id].log, Horizon(w.members[b.id]), Horizon(w'.members[b.id]));
        HeldByLonger(w'.h, b, w.members[b.id].log, w'.members[b.id].log, Horizon(w'.members[b.id]));
      }
    }
    forall b, v | b in w'.h.acks && v in w'.h.votes && b.id == v.id && b.epoch < v.epoch
      ensures Held(w'.h, b, w'.h.votes[v].log, v.epoch)
    {
      assert Held(w.h, b, w.h.votes[v].log, v.epoch);
      HeldGrows(w.h, w'.h, b, w.h.votes[v].log, v.epoch, v.epoch);
    }
  }

  lemma HeldByLonger(h: History, b: Ballot, log: seq<Entry>, log': seq<Entry>, hi: nat)
    requires Held(h, b, log, hi) && log <= log'
    ensures Held(h, b, log', hi)
  {
  }

  ghost predicate CanAccept(w: World, n: Id, k: nat, m: nat) {
    && n in w.members
    && var s := w.members[n];
    && s.epoch in w.h.reigns
    && s.voted.Some? && s.standing.Following?
    && var log := w.h.reigns[s.epoch].log;
    && k <= |log| && m <= |log|
    && log[..m] <= Adopt(s.log, log[..k])
  }

  lemma AcceptKeeps(w: World, n: Id, k: nat, m: nat)
    requires Inv(w) && CanAccept(w, n, k, m)
    ensures Inv(Accept(w, n, k, m))
  {
    var w' := Accept(w, n, k, m);
    var s, s' := w.members[n], w'.members[n];
    assert MemberOK(w, n, s);
    var r := w.h.reigns[s.epoch];
    assert ReignOK(w, s.epoch, r);
    assert Grows(w.h, w'.h);
    assert w.members.Keys == w'.members.Keys;
    AdoptedLogOK(w, n, k);
    LogOKGrows(w.h, w'.h, s'.log);
    SameReignsGrow(w, w');
    AcksGrow(w, w');
    BidsGrow(w.h, w'.h);
    VotesGrow(w.h, w'.h);
    MembersGrow(w, w', n);
    AcceptDurable(w, n, k, m);
  }

  lemma AdoptedLogOK(w: World, n: Id, k: nat)
    requires Recorded(w) && n in w.members && w.members[n].epoch in w.h.reigns
    requires k <= |w.h.reigns[w.members[n].epoch].log|
    ensures LogOK(w.h, Adopt(w.members[n].log, w.h.reigns[w.members[n].epoch].log[..k]))
    ensures EpochsAtMost(Adopt(w.members[n].log, w.h.reigns[w.members[n].epoch].log[..k]), w.members[n].epoch)
  {
    var s := w.members[n];
    var r := w.h.reigns[s.epoch];
    var t := r.log[..k];
    assert MemberOK(w, n, s);
    assert ReignOK(w, s.epoch, r);
    forall i | 0 <= i < k
      ensures Rooted(w.h, t, i) && t[i].epoch <= s.epoch
    {
      assert Rooted(w.h, r.log, i);
      assert t[..i + 1] == r.log[..i + 1];
      assert i < |r.start| ==> r.log[i] == r.start[i];
    }
  }

  /** Adopting from reign `e` keeps an acknowledged prefix or marks it lost to `e`. */
  lemma AdoptHolds(w: World, n: Id, k: nat, b: Ballot)
    requires Inv(w) && n in w.members && w.members[n].epoch in w.h.reigns && w.members[n].voted.Some?
    requires k <= |w.h.reigns[w.members[n].epoch].log|
    requires b in w.h.acks && b.id == n
    ensures Held(w.h, b, Adopt(w.members[n].log, w.h.reigns[w.members[n].epoch].log[..k]), Horizon(w.members[n]))
  {
    var s := w.members[n];
    var r := w.h.reigns[s.epoch];
    assert MemberOK(w, n, s);
    assert ReignOK(w, s.epoch, r);
    assert AckOK(w, b, w.h.acks[b]);
    assert Held(w.h, b, s.log, Horizon(s));
    forall j | 0 <= j <= w.h.acks[b]
      ensures w.h.reigns[b.epoch].log[..j] <= Adopt(s.log, r.log[..k]) || Lost(w.h, b.epoch, j, Horizon(s))
    {
      var p := w.h.reigns[b.epoch].log[..j];
      if p <= s.log {
        if p <= r.log {
          AdoptKeepsPrefix(p, s.log, r.log, k);
        } else {
          assert b.epoch < s.epoch;
          assert !(p <= r.start);
          assert Lost(w.h, b.epoch, j, Horizon(s));
        }
      }
    }
  }

  lemma AdoptKeepsPrefix(p: seq<Entry>, log: seq<Entry>, lead: seq<Entry>, k: nat)
    requires p <= log && p <= lead && k <= |lead|
    ensures p <= Adopt(log, lead[..k])
  {
    if k < |p| {
      assert lead[..k] == p[..k] == log[..k];
    }
  }

  lemma AcceptDurable(w: World, n: Id, k: nat, m: nat)
    requires Inv(w) && CanAccept(w, n, k, m)
    requires Grows(w.h, Accept(w, n, k, m).h)
    ensures Durable(Accept(w, n, k, m))
  {
    var w' := Accept(w, n, k, m);
    var s, s' := w.members[n], w'.members[n];
    var own := Ballot(n, s.epoch);
    assert MemberOK(w, n, s);
    forall b | b in w'.h.acks
      ensures b.id in w'.members && Held(w'.h, b, w'.members[b.id].log, Horizon(w'.members[b.id]))
    {
      if b in w.h.acks {
        assert AckOK(w, b, w.h.acks[b]);
        if b.id == n {
          AdoptHolds(w, n, k, b);
        }
        assert Held(w.h, b, w'.members[b.id].log, Horizon(w'.members[b.id])) by {
          assert b.id != n ==> Held(w.h, b, w.members[b.id].log, Horizon(w.members[b.id]));
        }
        if b != own {
          HeldGrows(w.h, w'.h, b, w'.members[b.id].log, Horizon(w'.members[b.id]), Horizon(w'.members[b.id]));
        }
      }
      if b == own {
        OwnAckHeld(w, n, k, m);
      }
    }
    forall b, v | b in w'.h.acks && v in w'.h.votes && b.id == v.id && b.epoch < v.epoch
      ensures Held(w'.h, b, w'.h.votes[v].log, v.epoch)
    {
      assert Held(w.h, b, w.h.votes[v].log, v.epoch);
      HeldGrows(w.h, w'.h, b, w.h.votes[v].log, v.epoch, v.epoch);
    }
  }

  lemma OwnAckHeld(w: World, n: Id, k: nat, m: nat)
    requires Inv(w) && CanAccept(w, n, k, m)
    ensures Held(Accept(w, n, k, m).h, Ballot(n, w.members[n].epoch), Accept(w, n, k, m).members[n].log, Horizon(w.members[n]))
  {
    var w' := Accept(w, n, k, m);
    var s := w.members[n];
    var own := Ballot(n, s.epoch);
    var r := w.h.reigns[s.epoch];
    var log' := w'.members[n].log;
    if own in w.h.acks {
      assert AckOK(w, own, w.h.acks[own]);
      AdoptHolds(w, n, k, own);
      assert !exists e2 :: e2 in w.h.reigns && s.epoch < e2 < Horizon(s);
    }
    forall j | 0 <= j <= w'.h.acks[own]
      ensures w'.h.reigns[own.epoch].log[..j] <= log'
    {
      if j <= m {
        assert r.log[..j] <= r.log[..m];
      }
    }
  }

  // ---------------------------------------------------------------- commitment

  lemma CommittedGrows(w: World, w': World, e: nat, k: nat)
    requires Grows(w.h, w'.h) && w'.members.Keys == w.members.Keys
    requires Committed(w, e, k)
    ensures Committed(w', e, k)
  {
    assert |w.members| == |w.members.Keys| && |w'.members| == |w'.members.Keys|;
    SubsetSize(Ackers(w, e, k), Ackers(w', e, k));
  }

  lemma CommittedPrefixGrows(w: World, w': World, e: nat, e': nat, log: seq<Entry>, log': seq<Entry>, c: nat)
    requires Grows(w.h, w'.h) && w'.members.Keys == w.members.Keys
    requires CommittedPrefix(w, e, log, c)
    requires e <= e' && c <= |log'| && log[..c] == log'[..c]
    ensures CommittedPrefix(w', e', log', c)
  {
    if c > 0 {
      var e1: nat, k1: nat :| CommitWitness(w, e, log, c, e1, k1);
      CommittedGrows(w, w', e1, k1);
      assert w'.h.reigns[e1].log[..c] == w.h.reigns[e1].log[..c];
      assert CommitWitness(w', e', log', c, e1, k1);
    }
  }

  /** Commitment is kept by a step of member `n` that leaves its own committed entries in place. */
  lemma CommitStep(w: World, w': World, n: Id)
    requires CommitInv(w) && n in w.members
    requires Grows(w.h, w'.h) && w'.members.Keys == w.members.Keys
    requires forall m :: m in w.members && m != n ==> w'.members[m] == w.members[m]
    requires CommittedPrefix(w', w'.members[n].epoch, w'.members[n].log, w'.members[n].commit)
    ensures CommitInv(w')
  {
    forall m | m in w'.members
      ensures CommittedPrefix(w', w'.members[m].epoch, w'.members[m].log, w'.members[m].commit)
    {
      if m != n {
        var s := w.members[m];
        CommittedPrefixGrows(w, w', s.epoch, s.epoch, s.log, s.log, s.commit);
      }
    }
  }

  /** What is committed as of epoch `e` is part of the log of reign `e`. */
  lemma CommittedInReign(w: World, e: nat, log: seq<Entry>, c: nat)
    requires Inv(w) && CommittedPrefix(w, e, log, c) && e in w.h.reigns
    ensures log[..c] <= w.h.reigns[e].log
  {
    if c > 0 {
      var e1: nat, k1: nat :| CommitWitness(w, e, log, c, e1, k1);
      if e1 < e {
        LeaderCompleteness(w, e1, k1, e);
        assert ReignOK(w, e, w.h.reigns[e]);
        assert w.h.reigns[e1].log[..c] <= w.h.reigns[e1].log[..k1];
      }
    }
  }

  /** State-machine safety: committed prefixes never disagree. */
  lemma CommittedAgree(w: World, e: nat, log: seq<Entry>, c: nat, e': nat, log': seq<Entry>, c': nat)
    requires Inv(w) && CommittedPrefix(w, e, log, c) && CommittedPrefix(w, e', log', c')
    requires c <= c'
    ensures log[..c] == log'[..c]
  {
    if c > 0 {
      var e1: nat, k1: nat :| CommitWitness(w, e, log, c, e1, k1);
      var e2: nat, k2: nat :| CommitWitness(w, e', log', c', e2, k2);
      var p, q := w.h.reigns[e1].log, w.h.reigns[e2].log;
      assert log'[..c] == q[..c'][..c] == q[..c];
      if e1 < e2 {
        LeaderCompleteness(w, e1, k1, e2);
        assert ReignOK(w, e2, w.h.reigns[e2]);
        assert p[..c] == p[..k1][..c] == q[..c];
      } else if e2 < e1 {
        LeaderCompleteness(w, e2, k2, e1);
        assert ReignOK(w, e1, w.h.reigns[e1]);
        assert q[..c] == q[..k2][..c] == p[..c];
      }
    }
  }

  lemma AcceptKeepsCommit(w: World, n: Id, k: nat, m: nat)
    requires Inv(w) && CommitInv(w) && CanAccept(w, n, k, m)
    ensures CommitInv(Accept(w, n, k, m))
  {
    var w' := Accept(w, n, k, m);
    var s, s' := w.members[n], w'.members[n];
    var lead := w.h.reigns[s.epoch].log;
    CommittedInReign(w, s.epoch, s.log, s.commit);
    AdoptKeepsPrefix(s.log[..s.commit], s.log, lead, k);
    CommittedPrefixGrows(w, w', s.epoch, s.epoch, s.log, s'.log, s.commit);
    CommitStep(w, w', n);
  }

  lemma CreateKeepsCommit(w: World, n: Id, cmd: Command)
    requires Inv(w) && CommitInv(w) && n in w.members && w.members[n].standing.Leading?
    requires w.members[n].epoch in w.h.reigns
    ensures CommitInv(Create(w, n, cmd))
  {
    var w' := Create(w, n, cmd);
    var s, s' := w.members[n], w'.members[n];
    CreateGrows(w, n, cmd);
    CommittedPrefixGrows(w, w', s.epoch, s.epoch, s.log, s'.log, s.commit);
    CommitStep(w, w', n);
  }

  lemma Start(members: set<Id>) returns (w: World)
    ensures w.members.Keys == members && Inv(w) && CommitInv(w)
    ensures forall n :: n in members ==> w.members[n] == Member(0, None, [], 0, Following)
    ensures w.h == History(map[], map[], map[], map[])
  {
    w := World(map n | n in members :: Member(0, None, [], 0, Following), History(map[], map[], map[], map[]));
  }
}
