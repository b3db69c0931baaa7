/**
The protocol behind the micro-quorum, stripped to what its safety rests on.

A member is an epoch, a vote, a whole log (nothing compacted) and a role.
Beside the members stands a history that is only ever extended: who voted for
whom holding which log, which log every candidate ran on, every reign (the
leader of an epoch, its voters, the log it started from and the log it has
reached) and the highest sequence number each member truthfully acknowledged
in each epoch.

Messages do not occur: the concrete cluster shows that every message it sends
states a fact about this history, and facts about the history stay true.
*/
module Protocol {
  import opened Options
  import opened Quorum
  import opened Collections

  datatype Standing =
    | Following
    | Running(votes: set<Id>)
    | Leading

  datatype Member = Member(epoch: nat, voted: Option<Id>, log: seq<Entry>, commit: nat, standing: Standing)

  /** Names one member in one epoch. */
  datatype Ballot = Ballot(id: Id, epoch: nat)

  datatype Vote = Vote(candidate: Id, log: seq<Entry>)

  datatype Reign = Reign(leader: Id, voters: set<Id>, start: seq<Entry>, log: seq<Entry>)

  datatype History = History(
    votes: map<Ballot, Vote>,
    bids: map<Ballot, seq<Entry>>,
    reigns: map<nat, Reign>,
    acks: map<Ballot, nat>)

  datatype World = World(members: map<Id, Member>, h: History)

  // ---------------------------------------------------------------- logs

  function LastEpoch(log: seq<Entry>): nat {
    if log == [] then 0 else log[|log| - 1].epoch
  }

  /** The election restriction: candidate log `c` is at least as recent as `v`. */
  predicate UpToDate(c: seq<Entry>, v: seq<Entry>) {
    LastEpoch(c) > LastEpoch(v) || (LastEpoch(c) == LastEpoch(v) && |c| >= |v|)
  }

  /** What accepting the leader prefix `target` does to a log. */
  function Adopt(log: seq<Entry>, target: seq<Entry>): seq<Entry> {
    if target <= log then log else target
  }

  predicate Numbered(log: seq<Entry>) {
    forall i :: 0 <= i < |log| ==> log[i].seqno == i + 1
  }

  predicate EpochsAtMost(log: seq<Entry>, e: nat) {
    forall i :: 0 <= i < |log| ==> log[i].epoch <= e
  }

  /** The entry at position `i` was created in a recorded reign and everything up to it agrees with that reign. */
  predicate Rooted(h: History, log: seq<Entry>, i: nat)
    requires i < |log|
  {
    log[i].epoch in h.reigns && log[..i + 1] <= h.reigns[log[i].epoch].log
  }

  predicate LogOK(h: History, log: seq<Entry>) {
    Numbered(log) && forall i {:trigger Rooted(h, log, i)} :: 0 <= i < |log| ==> Rooted(h, log, i)
  }

  // ---------------------------------------------------------------- quorums

  function Majority(w: World): nat {
    |w.members| / 2 + 1
  }

  ghost predicate IsQuorum(w: World, q: set<Id>) {
    q <= w.members.Keys && |q| >= Majority(w)
  }

  /** Members that acknowledged sequence number `k` in epoch `e`. */
  ghost function Ackers(w: World, e: nat, k: nat): set<Id> {
    set n | n in w.members && Ballot(n, e) in w.h.acks && w.h.acks[Ballot(n, e)] >= k
  }

  /** The commit rule: an entry of epoch `e` held by a majority during epoch `e`. */
  ghost predicate Committed(w: World, e: nat, k: nat) {
    && e in w.h.reigns
    && 0 < k <= |w.h.reigns[e].log|
    && w.h.reigns[e].log[k - 1].epoch == e
    && |Ackers(w, e, k)| >= Majority(w)
  }

  /** A reign between `e` and `hi` started without the first `k` entries of reign `e`. */
  ghost predicate Lost(h: History, e: nat, k: nat, hi: nat) {
    && e in h.reigns && k <= |h.reigns[e].log|
    && exists e2 :: e2 in h.reigns && e < e2 < hi && !(h.reigns[e].log[..k] <= h.reigns[e2].start)
  }

  // ---------------------------------------------------------------- invariant

  ghost predicate VoteOK(h: History, v: Id, e: nat, c: Id, log: seq<Entry>) {
    Ballot(v, e) in h.votes && h.votes[Ballot(v, e)].candidate == c && UpToDate(log, h.votes[Ballot(v, e)].log)
  }

  /** The ballots of one member agree with its durable epoch and vote. */
  ghost predicate BallotsOK(h: History, n: Id, s: Member) {
    && (s.voted.Some? <==> Ballot(n, s.epoch) in h.votes)
    && (s.voted.Some? ==> h.votes[Ballot(n, s.epoch)].candidate == s.voted.value)
    && (forall b :: b in h.votes && b.id == n ==> b.epoch <= s.epoch)
    && (forall b :: b in h.bids && b.id == n ==> b.epoch <= s.epoch)
    && (forall b :: b in h.acks && b.id == n ==> b.epoch <= s.epoch)
  }

  ghost predicate StandingOK(w: World, n: Id, s: Member) {
    match s.standing
    case Following => true
    case Running(votes) =>
      && Ballot(n, s.epoch) in w.h.bids
      && w.h.bids[Ballot(n, s.epoch)] == s.log
      && !(s.epoch in w.h.reigns && w.h.reigns[s.epoch].leader == n)
      && n in votes && votes <= w.members.Keys
      && (forall v :: v in votes ==> VoteOK(w.h, v, s.epoch, n, s.log))
    case Leading =>
      && s.epoch in w.h.reigns
      && w.h.reigns[s.epoch].leader == n
      && w.h.reigns[s.epoch].log == s.log
  }

  ghost predicate MemberOK(w: World, n: Id, s: Member) {
    && BallotsOK(w.h, n, s)
    && StandingOK(w, n, s)
    && LogOK(w.h, s.log)
    && EpochsAtMost(s.log, s.epoch)
  }

  ghost predicate BidOK(h: History, b: Ballot, log: seq<Entry>) {
    LogOK(h, log) && b.epoch > 0 && EpochsAtMost(log, b.epoch - 1)
  }

  ghost predicate ReignOK(w: World, e: nat, r: Reign) {
    && e > 0
    && r.start <= r.log
    && EpochsAtMost(r.start, e - 1)
    && (forall i :: |r.start| <= i < |r.log| ==> r.log[i].epoch == e)
    && LogOK(w.h, r.log)
    && IsQuorum(w, r.voters) && r.leader in r.voters
    && (forall v :: v in r.voters ==> VoteOK(w.h, v, e, r.leader, r.start))
    && (|r.log| > |r.start| ==> Ballot(r.leader, e) in w.h.acks && w.h.acks[Ballot(r.leader, e)] >= |r.log|)
  }

  ghost predicate ReignsOK(w: World) {
    forall e {:trigger ReignOK(w, e, w.h.reigns[e])} :: e in w.h.reigns ==> ReignOK(w, e, w.h.reigns[e])
  }

  ghost predicate AckOK(w: World, b: Ballot, k: nat) {
    b.id in w.members && b.epoch in w.h.reigns && k <= |w.h.reigns[b.epoch].log|
  }

  /** The first reign a member's log cannot have been overwritten by yet. */
  function Horizon(s: Member): nat {
    if s.voted.Some? then s.epoch + 1 else s.epoch
  }

  /** An acknowledged prefix is still held, unless some later reign started without it. */
  ghost predicate Held(h: History, b: Ballot, log: seq<Entry>, hi: nat) {
    && b in h.acks && b.epoch in h.reigns && h.acks[b] <= |h.reigns[b.epoch].log|
    && forall k :: 0 <= k <= h.acks[b] ==> h.reigns[b.epoch].log[..k] <= log || Lost(h, b.epoch, k, hi)
  }

  ghost predicate MembersOK(w: World) {
    forall n {:trigger MemberOK(w, n, w.members[n])} :: n in w.members ==> MemberOK(w, n, w.members[n])
  }

  ghost predicate BidsOK(h: History) {
    forall b {:trigger BidOK(h, b, h.bids[b])} :: b in h.bids ==> BidOK(h, b, h.bids[b])
  }

  ghost predicate VotesOK(h: History) {
    forall b {:trigger LogOK(h, h.votes[b].log)} :: b in h.votes ==> LogOK(h, h.votes[b].log)
  }

  ghost predicate AcksOK(w: World) {
    forall b {:trigger AckOK(w, b, w.h.acks[b])} :: b in w.h.acks ==> AckOK(w, b, w.h.acks[b])
  }

  ghost predicate Recorded(w: World) {
    MembersOK(w) && BidsOK(w.h) && VotesOK(w.h) && ReignsOK(w) && AcksOK(w)
  }

  ghost predicate Durable(w: World) {
    && (forall b {:trigger Held(w.h, b, w.members[b.id].log, Horizon(w.members[b.id]))} ::
          b in w.h.acks ==> b.id in w.members && Held(w.h, b, w.members[b.id].log, Horizon(w.members[b.id])))
    && (forall b, v {:trigger Held(w.h, b, w.h.votes[v].log, v.epoch)} :: b in w.h.acks && v in w.h.votes && b.id == v.id && b.epoch < v.epoch ==>
          Held(w.h, b, w.h.votes[v].log, v.epoch))
  }

  ghost predicate Inv(w: World) {
    Recorded(w) && Durable(w)
  }

  /** The first `c` entries of `log` are committed as of epoch `e`. */
  ghost predicate CommittedPrefix(w: World, e: nat, log: seq<Entry>, c: nat) {
    c <= |log| && (c == 0 || exists e1: nat, k1: nat :: CommitWitness(w, e, log, c, e1, k1))
  }

  ghost predicate CommitWitness(w: World, e: nat, log: seq<Entry>, c: nat, e1: nat, k1: nat) {
    && e1 <= e && c <= k1 && c <= |log|
    && Committed(w, e1, k1)
    && log[..c] == w.h.reigns[e1].log[..c]
  }

  ghost predicate CommitInv(w: World) {
    forall n :: n in w.members ==> CommittedPrefix(w, w.members[n].epoch, w.members[n].log, w.members[n].commit)
  }

  // ---------------------------------------------------------------- consequences

  lemma QuorumsMeet(w: World, p: set<Id>, q: set<Id>) returns (n: Id)
    requires IsQuorum(w, p) && IsQuorum(w, q)
    ensures n in p && n in q
  {
    assert |w.members.Keys| == |w.members|;
    n := Overlap(p, q, w.members.Keys);
  }

  /** Epochs never decrease along a log. */
  lemma EpochsAscend(w: World, log: seq<Entry>, i: nat, j: nat)
    requires ReignsOK(w)
    requires LogOK(w.h, log)
    requires i <= j < |log|
    ensures log[i].epoch <= log[j].epoch
  {
    assert Rooted(w.h, log, j);
    var r := w.h.reigns[log[j].epoch];
    assert ReignOK(w, log[j].epoch, r);
    assert log[..j + 1][i] == r.log[i];
    assert i < |r.start| ==> r.log[i] == r.start[i];
  }

  /** Log matching: two logs that agree on the epoch at one position are identical up to it. */
  lemma LogsMatch(h: History, a: seq<Entry>, b: seq<Entry>, i: nat)
    requires LogOK(h, a) && LogOK(h, b)
    requires i < |a| && i < |b| && a[i].epoch == b[i].epoch
    ensures a[..i + 1] == b[..i + 1]
  {
    assert Rooted(h, a, i) && Rooted(h, b, i);
  }

  /** Election safety: a quorum votes for one candidate per epoch. */
  lemma OneLeaderPerEpoch(w: World, n: Id, votes: set<Id>, e: nat)
    requires Recorded(w)
    requires e in w.h.reigns
    requires IsQuorum(w, votes)
    requires forall v :: v in votes ==> Ballot(v, e) in w.h.votes && w.h.votes[Ballot(v, e)].candidate == n
    ensures w.h.reigns[e].leader == n
  {
    var r := w.h.reigns[e];
    assert ReignOK(w, e, r);
    var v := QuorumsMeet(w, votes, r.voters);
    assert VoteOK(w.h, v, e, r.leader, r.start);
  }

  /** Leader completeness: every later reign starts with everything committed before it. */
  lemma {:induction false} LeaderCompleteness(w: World, e: nat, k: nat, e2: nat)
    requires Inv(w)
    requires Committed(w, e, k)
    requires e2 in w.h.reigns && e < e2
    ensures w.h.reigns[e].log[..k] <= w.h.reigns[e2].start
    decreases e2
  {
    forall f | f in w.h.reigns && e < f < e2
      ensures w.h.reigns[e].log[..k] <= w.h.reigns[f].start
    {
      LeaderCompleteness(w, e, k, f);
    }
    var n := VoterHeldCommitted(w, e, k, e2);
    MoreRecentLogContains(w, e, k, e2, w.h.votes[Ballot(n, e2)].log);
  }

  /** Some voter of a later reign voted while still holding the committed prefix. */
  lemma VoterHeldCommitted(w: World, e: nat, k: nat, e2: nat) returns (n: Id)
    requires Inv(w)
    requires Committed(w, e, k)
    requires e2 in w.h.reigns && e < e2
    requires forall f :: f in w.h.reigns && e < f < e2 ==> w.h.reigns[e].log[..k] <= w.h.reigns[f].start
    ensures VoteOK(w.h, n, e2, w.h.reigns[e2].leader, w.h.reigns[e2].start)
    ensures w.h.reigns[e].log[..k] <= w.h.votes[Ballot(n, e2)].log
    ensures LogOK(w.h, w.h.votes[Ballot(n, e2)].log)
  {
    var r := w.h.reigns[e2];
    assert ReignOK(w, e2, r);
    n := QuorumsMeet(w, Ackers(w, e, k), r.voters);
    assert VoteOK(w.h, n, e2, r.leader, r.start);
    assert Held(w.h, Ballot(n, e), w.h.votes[Ballot(n, e2)].log, e2);
    assert !Lost(w.h, e, k, e2);
  }

  /** A log at least as recent as one holding a committed prefix holds that prefix too. */
  lemma MoreRecentLogContains(w: World, e: nat, k: nat, e2: nat, seen: seq<Entry>)
    requires Recorded(w)
    requires Committed(w, e, k)
    requires e2 in w.h.reigns && e < e2
    requires forall f :: f in w.h.reigns && e < f < e2 ==> w.h.reigns[e].log[..k] <= w.h.reigns[f].start
    requires LogOK(w.h, seen) && w.h.reigns[e].log[..k] <= seen
    requires UpToDate(w.h.reigns[e2].start, seen)
    ensures w.h.reigns[e].log[..k] <= w.h.reigns[e2].start
  {
    var c := w.h.reigns[e2].start;
    HolderIsRecent(w, e, k, seen);
    var f := LastEpoch(c);
    StartOfReign(w, e2);
    if f > e {
      assert ReignOK(w, f, w.h.reigns[f]);
      LaterEntryIsBeyond(w, e, k, f, |c| - 1);
      PrefixesCompare(w.h.reigns[e].log[..k], c, w.h.reigns[f].log);
    } else {
      PrefixesCompare(w.h.reigns[e].log[..k], c, w.h.reigns[f].log);
    }
  }

  lemma PrefixesCompare(a: seq<Entry>, b: seq<Entry>, c: seq<Entry>)
    requires a <= c && b <= c && |a| <= |b|
    ensures a <= b
  {
  }

  /** A log holding a committed prefix ends in the epoch of the commit or a later one. */
  lemma HolderIsRecent(w: World, e: nat, k: nat, seen: seq<Entry>)
    requires Recorded(w)
    requires Committed(w, e, k)
    requires LogOK(w.h, seen) && w.h.reigns[e].log[..k] <= seen
    ensures e > 0 && |seen| >= k && LastEpoch(seen) >= e
  {
    var p := w.h.reigns[e].log[..k];
    assert ReignOK(w, e, w.h.reigns[e]);
    assert seen[k - 1] == p[k - 1];
    EpochsAscend(w, seen, k - 1, |seen| - 1);
  }

  /** The log a reign starts from is a prefix of the reign of its last entry. */
  lemma StartOfReign(w: World, e: nat)
    requires Recorded(w)
    requires e in w.h.reigns && w.h.reigns[e].start != []
    ensures LastEpoch(w.h.reigns[e].start) < e
    ensures LastEpoch(w.h.reigns[e].start) in w.h.reigns
    ensures w.h.reigns[e].start <= w.h.reigns[LastEpoch(w.h.reigns[e].start)].log
  {
    var r := w.h.reigns[e];
    assert ReignOK(w, e, r);
    var last := |r.start| - 1;
    assert r.log[..last + 1] == r.start;
    assert Rooted(w.h, r.log, last);
  }

  /** An entry created in reign `f` lies above every entry of an earlier reign that `f` started with. */
  lemma LaterEntryIsBeyond(w: World, e: nat, k: nat, f: nat, i: nat)
    requires Recorded(w)
    requires e in w.h.reigns && f in w.h.reigns && e < f
    requires k <= |w.h.reigns[e].log| && w.h.reigns[e].log[..k] <= w.h.reigns[f].start
    requires i < |w.h.reigns[f].log| && w.h.reigns[f].log[i].epoch == f
    ensures k <= i
  {
    var r := w.h.reigns[f];
    assert ReignOK(w, f, r);
  }
}
