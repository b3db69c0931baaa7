/** Received entries keep the simulation. */
module SimAppend {
  import opened Options
  import opened Quorum
  import opened Collections
  import opened Groups
  import opened Cluster
  import opened Turns
  import opened Protocol
  import opened ProtocolSteps
  import opened Mirror
  import opened Storage
  import opened Simulation
  import opened SimMoves
  import opened SimElections
  import opened SimLeader
  import opened SimClient
  import opened Guards

  // ---------------------------------------------------------------- the consistency check

  /** A follower of reign `e`: its log is well rooted and its committed entries are the leader's. */
  ghost predicate Follows(strict: bool, w: World, id: Id, s: Node, e: nat) {
    && Ready(strict, w, id)
    && e in w.h.reigns && w.members[id].epoch == e
    && w.members[id].voted.Some? && w.members[id].standing.Following?
    && Mirrors(s, w.members[id]) && VoteBacked(w.h, id, w.members[id])
    && (if strict then s.baseSeq <= s.applied == s.commit else s.baseSeq == 0)
  }

  /** Everything below the snapshot point of a follower is the leader's. */
  lemma BaseAgrees(strict: bool, w: World, id: Id, s: Node, e: nat)
    requires Follows(strict, w, id, s, e)
    ensures var full, lead := w.members[id].log, w.h.reigns[e].log;
            s.baseSeq <= |full| && s.baseSeq <= |lead| && full[..s.baseSeq] == lead[..s.baseSeq]
  {
    hide Inv;
    if strict {
      var full := w.members[id].log;
      CommittedInReign(w, e, full, s.commit);
      assert full[..s.baseSeq] == full[..s.commit][..s.baseSeq];
    }
  }

  lemma LogsOf(w: World, id: Id, e: nat)
    requires Inv(w) && id in w.members && e in w.h.reigns
    ensures LogOK(w.h, w.members[id].log) && LogOK(w.h, w.h.reigns[e].log)
  {
    assert MemberOK(w, id, w.members[id]);
    assert ReignOK(w, e, w.h.reigns[e]);
  }

  lemma EpochPositive(w: World, id: Id, i: nat)
    requires Inv(w) && id in w.members && i < |w.members[id].log|
    ensures w.members[id].log[i].epoch > 0
  {
    var log := w.members[id].log;
    assert MemberOK(w, id, w.members[id]);
    assert Rooted(w.h, log, i);
    assert ReignOK(w, log[i].epoch, w.h.reigns[log[i].epoch]);
  }

  /** If the check passes, the follower and the leader agree up to the entries received. */
  lemma PrevAgrees(strict: bool, w: World, id: Id, s: Node, src: Id, msg: Msg)
    requires msg.Append? && Follows(strict, w, id, s, msg.epoch) && AppendOK(strict, w, src, msg)
    requires PrevOK(s, msg)
    ensures var full, lead := w.members[id].log, w.h.reigns[msg.epoch].log;
            Slice(w, msg) && msg.prevSeq <= |full| && full[..msg.prevSeq] == lead[..msg.prevSeq]
  {
    hide Inv, CommitInv, CommittedPrefix;
    var full, lead, p := w.members[id].log, w.h.reigns[msg.epoch].log, msg.prevSeq;
    BaseAgrees(strict, w, id, s, msg.epoch);
    if p < s.baseSeq {
      assert full[..p] == full[..s.baseSeq][..p] == lead[..s.baseSeq][..p];
    } else if p > 0 {
      ReadAt(s, full, p);
      EpochPositive(w, id, p - 1);
      LogsOf(w, id, msg.epoch);
      LogsMatch(w.h, full, lead, p - 1);
    }
  }

  lemma LogsMatching(h: History, a: seq<Entry>, b: seq<Entry>, k: nat)
    requires LogOK(h, a) && LogOK(h, b) && k <= |b|
    ensures Matching(a, b[..k]) && Numbered(b[..k])
  {
    forall i {:trigger a[i], b[..k][i]} | 0 <= i < |a| && i < |b[..k]| && a[i].epoch == b[..k][i].epoch
      ensures a[..i + 1] == b[..k][..i + 1]
    {
      LogsMatch(h, a, b, i);
      assert b[..k][..i + 1] == b[..i + 1];
    }
  }

  /** Merging the received entries adopts the leader's prefix. */
  lemma ReceivedIsAdopted(strict: bool, w: World, id: Id, s: Node, src: Id, msg: Msg)
    requires msg.Append? && Follows(strict, w, id, s, msg.epoch) && AppendOK(strict, w, src, msg)
    requires PrevOK(s, msg)
    ensures msg.prevSeq + |msg.entries| <= |w.h.reigns[msg.epoch].log|
    ensures var full, t := w.members[id].log, w.h.reigns[msg.epoch].log[..msg.prevSeq + |msg.entries|];
            var full' := Adopt(full, t);
            var g := Merge(s.baseSeq, Merged(s.log, None), msg.entries);
            && s.baseSeq <= |full'| && g.log == full'[s.baseSeq..]
            && (full' == full ==> g == Merged(s.log, None))
            && (full' != full ==> ConflictAt(s.baseSeq, full, t, g.from))
  {
    hide Inv, CommitInv, CommittedPrefix, LogOK, Merge, VoteBacked, Matching, PrevOK;
    var full, lead := w.members[id].log, w.h.reigns[msg.epoch].log;
    PrevAgrees(strict, w, id, s, src, msg);
    var k := msg.prevSeq + |msg.entries|;
    var t := lead[..k];
    LogsOf(w, id, msg.epoch);
    LogsMatching(w.h, full, lead, k);
    BaseAgrees(strict, w, id, s, msg.epoch);
    var b := Min(s.baseSeq, k);
    assert full[..b] == full[..s.baseSeq][..b] == lead[..s.baseSeq][..b] == t[..b];
    assert full[..msg.prevSeq] == t[..msg.prevSeq];
    assert t[msg.prevSeq..] == msg.entries;
    MergeIsAdopt(s.baseSeq, full, t, msg.prevSeq, None);
  }

  // ---------------------------------------------------------------- accepting

  /** What an accepted Append acknowledges: the end of the log as written, the received prefix as documented. */
  function AckPoint(asWritten: bool, full: seq<Entry>, k: nat): nat {
    if asWritten then |full| else k
  }

  /** With the guard, the whole new log is the leader's. */
  lemma AckIsTruthful(w: World, id: Id, e: nat, k: nat)
    requires Inv(w) && id in w.members && e in w.h.reigns && w.members[id].epoch == e && k <= |w.h.reigns[e].log|
    requires var full' := Adopt(w.members[id].log, w.h.reigns[e].log[..k]); |full'| <= k || LastEpoch(full') == e
    ensures Adopt(w.members[id].log, w.h.reigns[e].log[..k]) <= w.h.reigns[e].log
  {
    var full, lead := w.members[id].log, w.h.reigns[e].log;
    var full' := Adopt(full, lead[..k]);
    AdoptedLogOK(w, id, k);
    if |full'| > k {
      assert Rooted(w.h, full', |full'| - 1);
      assert full'[..|full'|] == full';
    }
  }

  lemma AcceptMove(strict: bool, w: World, n: Id, k: nat, m: nat)
    requires Ready(strict, w, n) && CanAccept(w, n, k, m)
    ensures Moved(strict, w, Accept(w, n, k, m), n)
    ensures VoteBacked(w.h, n, w.members[n]) ==> VoteBacked(Accept(w, n, k, m).h, n, Accept(w, n, k, m).members[n])
  {
    hide Inv, CommitInv;
    AcceptKeeps(w, n, k, m);
    if strict {
      AcceptKeepsCommit(w, n, k, m);
    }
  }

  /** The follower adopts the received prefix and acknowledges it, or, where the guard holds, its whole log. */
  lemma ReceiveMove(strict: bool, asWritten: bool, w: World, id: Id, s: Node, src: Id, msg: Msg) returns (w': World)
    requires msg.Append? && Follows(strict, w, id, s, msg.epoch) && AppendOK(strict, w, src, msg)
    requires PrevOK(s, msg) && (strict && asWritten ==> TruthfulAck(s, msg)) && msg.epoch == s.epoch
    ensures msg.prevSeq + |msg.entries| <= |w.h.reigns[msg.epoch].log|
    ensures Moved(strict, w, w', id) && Follows(strict, w', id, Received(s, msg), msg.epoch)
    ensures w'.h.reigns == w.h.reigns && w'.members[id].commit == w.members[id].commit
    ensures w'.members[id].log == Adopt(w.members[id].log, w.h.reigns[msg.epoch].log[..msg.prevSeq + |msg.entries|])
    ensures strict ==> AckedUpTo(w'.h, id, msg.epoch, AckPoint(asWritten, w'.members[id].log, msg.prevSeq + |msg.entries|))
  {
    hide Inv, CommitInv, CommittedPrefix, Grows, Merge, AppendOK, TruthfulAck, PrevOK, VoteBacked, Adopt;
    ReceivedIsAdopted(strict, w, id, s, src, msg);
    var k := msg.prevSeq + |msg.entries|;
    var full, lead := w.members[id].log, w.h.reigns[msg.epoch].log;
    var full' := Adopt(full, lead[..k]);
    BaseAgrees(strict, w, id, s, msg.epoch);
    AdoptKeepsBase(s.baseSeq, full, lead, k);
    AdoptHasTarget(full, lead[..k]);
    ReceivedBase(s, full, full', msg);
    if strict && asWritten {
      AdoptedNumbered(w, id, k);
      ReadLast(Received(s, msg), full');
      GuardSays(s, msg);
      AckIsTruthful(w, id, msg.epoch, k);
    }
    var ack := AckPoint(strict && asWritten, full', k);
    w' := Accept(w, id, k, ack);
    AcceptMove(strict, w, id, k, ack);
  }

  lemma GuardSays(s: Node, msg: Msg)
    requires msg.Append? && TruthfulAck(s, msg) && PrevOK(s, msg) && msg.epoch >= s.epoch
    ensures LastSeq(Received(s, msg)) <= msg.prevSeq + |msg.entries| || LastEpochOf(Received(s, msg)) == msg.epoch
  {
    hide Merge;
  }

  lemma ReceivedBase(s: Node, full: seq<Entry>, full': seq<Entry>, msg: Msg)
    requires msg.Append? && SuffixOf(s, full) && s.baseSeq <= |full'| && full'[..s.baseSeq] == full[..s.baseSeq]
    requires Received(s, msg).log == full'[s.baseSeq..]
    ensures SuffixOf(Received(s, msg), full')
  {
    hide Merge;
    if s.baseSeq > 0 {
      assert full'[..s.baseSeq][s.baseSeq - 1] == full[..s.baseSeq][s.baseSeq - 1];
    }
  }

  lemma AdoptedNumbered(w: World, id: Id, k: nat)
    requires Inv(w) && id in w.members && w.members[id].epoch in w.h.reigns
    requires k <= |w.h.reigns[w.members[id].epoch].log|
    ensures Numbered(Adopt(w.members[id].log, w.h.reigns[w.members[id].epoch].log[..k]))
  {
    AdoptedLogOK(w, id, k);
  }

  lemma AdoptKeepsBase(base: nat, full: seq<Entry>, lead: seq<Entry>, k: nat)
    requires base <= |full| && base <= |lead| && full[..base] == lead[..base] && k <= |lead|
    ensures var full' := Adopt(full, lead[..k]);
            base <= |full'| && full'[..base] == full[..base]
  {
    AdoptKeepsPrefix(full[..base], full, lead, k);
  }

  // ---------------------------------------------------------------- answers

  lemma ReplyOK(strict: bool, m: Machine, w: World, id: Id, to: Id, e: nat, at: nat, ok: bool, pre: seq<Action>)
    requires to in w.members && to != id && MsgOK(strict, m, w, id, to, AppendResp(e, at, ok))
    requires forall a :: a in pre ==> !a.Send? && !a.NeedSnapshot?
    ensures SendsOK(strict, m, w, id, pre + [Send(to, AppendResp(e, at, ok))])
  {
    ApplySends(strict, m, w, id, pre);
    forall a | a in [Send(to, AppendResp(e, at, ok))]
      ensures SendOK(strict, m, w, id, a)
    {
    }
    SendsConcat(strict, m, w, id, pre, [Send(to, AppendResp(e, at, ok))]);
  }

  /** A message of an older epoch is refused. */
  lemma StaleStep(strict: bool, m: Machine, group: seq<Id>, w: World, id: Id, h: Host, from: Id)
    requires Here(strict, m, group, w, id, h) && from in w.members && from != id
    ensures Answers(strict, m, group, w, w, id, h, Outcome(h.node, [Send(from, AppendResp(h.node.epoch, 0, false))]))
  {
    hide Inv, CommitInv, Grows, Save, Mirrors, RowsOK, Settled;
    MovedNot(strict, w, id);
    ReplyOK(strict, m, w, id, from, h.node.epoch, 0, false, []);
    assert [] + [Send(from, AppendResp(h.node.epoch, 0, false))] == [Send(from, AppendResp(h.node.epoch, 0, false))];
    QuietTurn(strict, m, group, w, w, id, h, Outcome(h.node, [Send(from, AppendResp(h.node.epoch, 0, false))]));
  }

  lemma JoinFollows(strict: bool, m: Machine, group: seq<Id>, w: World, id: Id, h: Host, from: Id, e: nat)
    requires Here(strict, m, group, w, id, h) && h.node.epoch <= e && e in w.h.reigns && w.h.reigns[e].leader == from
    ensures var w1, s1 := Join(w, id, from, e), Follow(h.node, from, e).node;
            && Moved(strict, w, w1, id) && Follows(strict, w1, id, s1, e)
            && w1.h.reigns == w.h.reigns && w1.members[id].log == w.members[id].log
  {
    hide Inv, CommitInv, Grows;
    JoinMove(strict, w, id, h.node, from, e);
    FollowDiscipline(h.node, from, e);
  }

  lemma RejectStep(strict: bool, m: Machine, group: seq<Id>, w: World, id: Id, h: Host, from: Id, e: nat, hint: nat)
    requires Here(strict, m, group, w, id, h) && from in w.members && from != id
    requires h.node.epoch <= e && e in w.h.reigns && w.h.reigns[e].leader == from
    ensures var f := Follow(h.node, from, e);
            Answers(strict, m, group, w, Join(w, id, from, e), id, h, Outcome(f.node, f.actions + [Send(from, AppendResp(e, hint, false))]))
  {
    hide Inv, CommitInv, Grows, Save, Mirrors, RowsOK, Settled, Follow, Join;
    var w1, f := Join(w, id, from, e), Follow(h.node, from, e);
    JoinFollows(strict, m, group, w, id, h, from, e);
    FollowDiscipline(h.node, from, e);
    ReplyOK(strict, m, w1, id, from, e, hint, false, f.actions);
    NoRows(w1.h, f.node, w1.members[id].log);
    QuietTurn(strict, m, group, w, w1, id, h, Outcome(f.node, f.actions + [Send(from, AppendResp(e, hint, false))]));
  }

  lemma NoRows(h: History, s: Node, full: seq<Entry>)
    requires !s.role.Leader?
    ensures RowsOK(h, s, full) && Settled(s)
  {
  }

  // ---------------------------------------------------------------- acceptance

  /** The node that follows the leader's commit mark. */
  function Caught(s: Node, msg: Msg): Node
    requires msg.Append?
  {
    if msg.commit > s.commit then s.(commit := Min(msg.commit, LastSeq(s)), applied := Max(s.applied, Min(msg.commit, LastSeq(s)))) else s
  }

  lemma AcceptedIs(s: Node, from: Id, msg: Msg)
    requires msg.Append? && msg.epoch >= s.epoch && PrevOK(Follow(s, from, msg.epoch).node, msg)
    ensures var f := Follow(s, from, msg.epoch);
            var s2 := Received(f.node, msg);
            var g := Merge(f.node.baseSeq, Merged(f.node.log, None), msg.entries);
            var applies := if msg.commit > s2.commit then ApplyRange(s2, s2.applied, Min(msg.commit, LastSeq(s2))) else [];
            HandleAppend(s, from, msg) == Outcome(Caught(s2, msg),
              f.actions + (if g.from.Some? then [PersistLog(g.from.value)] else []) + applies
              + [Send(from, AppendResp(f.node.epoch, LastSeq(s2), true))])
  {
    var s2 := Received(Follow(s, from, msg.epoch).node, msg);
    ApplyRangeSame(s2, s2.(commit := Min(msg.commit, LastSeq(s2))), s2.applied, Min(msg.commit, LastSeq(s2)));
  }

  lemma CatchMove(strict: bool, w: World, id: Id, s2: Node, lead: seq<Entry>, k: nat, msg: Msg) returns (w': World)
    requires msg.Append? && Follows(strict, w, id, s2, msg.epoch)
    requires strict ==> k <= |lead| && lead[..k] <= w.members[id].log && msg.commit <= k && CommittedPrefix(w, msg.epoch, lead, msg.commit)
    ensures Moved(strict, w, w', id) && Follows(strict, w', id, Caught(s2, msg), msg.epoch)
    ensures w'.h == w.h && w'.members[id].log == w.members[id].log
    ensures strict ==> s2.applied <= Caught(s2, msg).applied <= |w'.members[id].log|
  {
    hide Inv, CommitInv, CommittedPrefix, Grows;
    w' := w;
    MovedNot(strict, w, id);
    if strict {
      LaterCommit(w, w, id);
      CommitWithinLog(w, id);
    }
    if msg.commit > s2.commit {
      ReadMember(w, id, s2);
      var c := Min(msg.commit, LastSeq(s2));
      if strict {
        PrefixCommit(w, msg.epoch, lead, w.members[id].log, k, msg.commit);
      }
      w' := SetCommit(w, id, c);
      SetCommitMove(strict, w, id, c);
    }
  }

  lemma CommitWithinLog(w: World, id: Id)
    requires id in w.members && CommittedPrefix(w, w.members[id].epoch, w.members[id].log, w.members[id].commit)
    ensures w.members[id].commit <= |w.members[id].log|
  {
  }

  lemma PrefixCommit(w: World, e: nat, lead: seq<Entry>, full: seq<Entry>, k: nat, c: nat)
    requires k <= |lead| && lead[..k] <= full && c <= k && CommittedPrefix(w, e, lead, c)
    ensures c <= |full| && CommittedPrefix(w, e, full, c)
  {
    assert lead[..c] == lead[..k][..c] == full[..c];
    CommittedPrefixGrows(w, w, e, e, lead, full, c);
  }

  /** The applied entries of a follower survive what it receives. */
  lemma ReceivedFile(m: Machine, w: World, id: Id, h: Host, e: nat, k: nat, s1: Node)
    requires Follows(true, w, id, s1, e) && s1.applied == h.node.applied
    requires FileOK(m, h.disk.file, w.members[id].log, h.node.applied) && k <= |w.h.reigns[e].log|
    ensures FileOK(m, h.disk.file, Adopt(w.members[id].log, w.h.reigns[e].log[..k]), h.node.applied)
  {
    hide Inv;
    var full, lead := w.members[id].log, w.h.reigns[e].log;
    CommittedInReign(w, e, full, s1.commit);
    AdoptKeepsPrefix(full[..s1.commit], full, lead, k);
    FileAgrees(m, h.disk.file, full, Adopt(full, lead[..k]), h.node.applied);
  }

  /** The received entries are stored. */
  lemma ReceivedSaved(m: Machine, full: seq<Entry>, t: seq<Entry>, disk: Disk, s: Node, s': Node, from: Option<nat>,
          pre: seq<Action>, post: seq<Action>)
    requires Synced(disk, s) && SuffixOf(s, full) && Numbered(full) && Numbered(t)
    requires s'.baseSeq == s.baseSeq && s'.baseEpoch == s.baseEpoch && s.baseSeq <= |Adopt(full, t)|
    requires s'.log == Adopt(full, t)[s.baseSeq..]
    requires Adopt(full, t) == full ==> from.None?
    requires Adopt(full, t) != full ==> ConflictAt(s.baseSeq, full, t, from)
    requires forall a :: a in pre + post ==> !a.PersistLog?
    requires PersistMeta in pre || (s'.epoch == s.epoch && s'.votedFor == s.votedFor)
    ensures var actions := pre + (if from.Some? then [PersistLog(from.value)] else []) + post;
            Synced(Save(m, s', disk, actions), s')
  {
    hide Save, EntriesFrom;
    var actions := pre + (if from.Some? then [PersistLog(from.value)] else []) + post;
    SaveMetaEffect(m, s', disk, actions);
    if from.Some? {
      var b, q := s.baseSeq, from.value;
      forall a | a in pre || a in post
        ensures !a.PersistLog?
      {
        assert a in pre + post;
      }
      SaveOnce(m, s', disk, pre, q, post);
      assert full[b..][..q - b - 1] == full[..q - 1][b..];
      assert t[b..][..q - b - 1] == t[..q - 1][b..];
      SaveLogStores(disk, b, s.log, s', q);
    } else {
      assert actions == pre + post;
      SaveKeepsLog(m, s', disk, actions);
    }
  }

  // ---------------------------------------------------------------- the whole turn

  lemma SameGuard(s: Node, from: Id, msg: Msg)
    requires msg.Append? && msg.epoch >= s.epoch
    ensures var s1 := Follow(s, from, msg.epoch).node;
            && s1.epoch == msg.epoch
            && (PrevOK(s1, msg) <==> PrevOK(s, msg))
            && (TruthfulAck(s, msg) && PrevOK(s, msg) ==> TruthfulAck(s1, msg))
            && LastSeq(Received(s1, msg)) == LastSeq(Received(s, msg))
  {
    hide Merge;
    FollowDiscipline(s, from, msg.epoch);
    var s1 := Follow(s, from, msg.epoch).node;
    assert EntryAt(s1, msg.prevSeq) == EntryAt(s, msg.prevSeq);
  }

  lemma AppendGrows(strict: bool, m: Machine, w: World, w': World, id: Id, src: Id, msg: Msg)
    requires msg.Append? && AppendOK(strict, w, src, msg) && Moved(strict, w, w', id)
    ensures AppendOK(strict, w', src, msg)
  {
    hide Inv, CommitInv, AppendOK;
    assert MsgOK(strict, m, w, src, id, msg);
    MsgGrows(strict, m, w, w', src, id, msg);
  }

  /** The moves of an accepted Append. */
  lemma AcceptMoves(strict: bool, asWritten: bool, m: Machine, group: seq<Id>, w: World, id: Id, h: Host, from: Id,
          msg: Msg) returns (w': World)
    requires Here(strict, m, group, w, id, h) && msg.Append? && h.node.epoch <= msg.epoch
    requires AppendOK(strict, w, from, msg) && PrevOK(h.node, msg) && (strict && asWritten ==> TruthfulAck(h.node, msg))
    ensures var s2 := Received(Follow(h.node, from, msg.epoch).node, msg);
            var k := msg.prevSeq + |msg.entries|;
            && k <= |w.h.reigns[msg.epoch].log|
            && Moved(strict, w, w', id) && Follows(strict, w', id, Caught(s2, msg), msg.epoch)
            && w'.members[id].log == Adopt(w.members[id].log, w.h.reigns[msg.epoch].log[..k])
            && LastSeq(s2) == |w'.members[id].log| && SuffixOf(s2, w'.members[id].log) && Numbered(w'.members[id].log)
            && (strict ==> AckedUpTo(w'.h, id, msg.epoch, AckPoint(asWritten, w'.members[id].log, k)))
            && (strict ==> s2.baseSeq <= s2.applied <= Caught(s2, msg).applied <= |w'.members[id].log|)
  {
    hide Inv, CommitInv, CommittedPrefix, Grows, Merge, Follow, PrevOK, TruthfulAck, Mirrors;
    var e, k := msg.epoch, msg.prevSeq + |msg.entries|;
    JoinFollows(strict, m, group, w, id, h, from, e);
    var w1, s1 := Join(w, id, from, e), Follow(h.node, from, e).node;
    AppendGrows(strict, m, w, w1, id, from, msg);
    SameGuard(h.node, from, msg);
    var w2 := ReceiveMove(strict, asWritten, w1, id, s1, from, msg);
    AppendGrows(strict, m, w1, w2, id, from, msg);
    var lead := w.h.reigns[e].log;
    AdoptHasTarget(w.members[id].log, lead[..k]);
    w' := CatchMove(strict, w2, id, Received(s1, msg), lead, k, msg);
    MovedTwice(strict, w, w1, w2, id);
    MovedTwice(strict, w, w2, w', id);
    ReadFollower(strict, w2, id, Received(s1, msg), e);
  }

  lemma ReadFollower(strict: bool, w: World, id: Id, s: Node, e: nat)
    requires Follows(strict, w, id, s, e)
    ensures LastSeq(s) == |w.members[id].log| && SuffixOf(s, w.members[id].log) && Numbered(w.members[id].log)
    ensures strict ==> s.baseSeq <= s.applied
  {
    hide Inv;
    ReadMember(w, id, s);
  }

  lemma AdoptHasTarget(full: seq<Entry>, t: seq<Entry>)
    ensures t <= Adopt(full, t)
  {
  }

  lemma AppliesPaced(m: Machine, full: seq<Entry>, s2: Node, msg: Msg)
    requires msg.Append? && SuffixOf(s2, full) && Numbered(full) && s2.baseSeq <= s2.applied == s2.commit
    requires s2.applied <= Caught(s2, msg).applied <= |full|
    ensures var t := Caught(s2, msg);
            && t.commit == t.applied
            && Paced(m, full, t.applied, Applied(s2, msg), s2.applied, t.applied)
  {
    hide Paced, ApplyRange;
    var t := Caught(s2, msg);
    ReadLast(s2, full);
    if msg.commit > s2.commit {
      ApplyRangePaced(m, s2, full, t.applied, s2.applied, t.applied);
    } else {
      IdlePaced(m, full, t.applied, [], s2.applied);
    }
  }

  ghost function Applied(s2: Node, msg: Msg): seq<Action>
    requires msg.Append?
  {
    if msg.commit > s2.commit then ApplyRange(s2, s2.applied, Min(msg.commit, LastSeq(s2))) else []
  }

  lemma AcceptedPaced(m: Machine, full: seq<Entry>, goal: nat, pre: seq<Action>, applies: seq<Action>,
          post: seq<Action>, k: nat, k': nat)
    requires forall a :: a in pre ==> Idle(a)
    requires forall a :: a in post ==> Idle(a)
    requires Paced(m, full, goal, applies, k, k')
    ensures Paced(m, full, goal, pre + applies + post, k, k')
  {
    hide Paced, Idle;
    IdlePaced(m, full, goal, pre, k);
    IdlePaced(m, full, goal, post, k');
    PacedConcat(m, full, goal, pre, applies, k, k, k');
    PacedConcat(m, full, goal, pre + applies, post, k, k', k');
  }

  lemma AcceptStep(strict: bool, m: Machine, group: seq<Id>, w: World, id: Id, h: Host, from: Id, msg: Msg)
    returns (w': World)
    requires Here(strict, m, group, w, id, h) && msg.Append? && h.node.epoch <= msg.epoch && from in w.members
    requires from != id
    requires AppendOK(strict, w, from, msg) && PrevOK(h.node, msg) && (strict ==> TruthfulAck(h.node, msg))
    ensures Answers(strict, m, group, w, w', id, h, HandleAppend(h.node, from, msg))
  {
    hide Inv, CommitInv, CommittedPrefix, Grows, Merge, Follow, PrevOK, TruthfulAck, Paced, Save, SendsOK, ApplyRange, AppendOK,
      Synced, HandleAppend, Mirrors, RowsOK, Settled, FileOK;
    w' := AcceptMoves(strict, true, m, group, w, id, h, from, msg);
    var f := Follow(h.node, from, msg.epoch);
    var s2 := Received(f.node, msg);
    SameGuard(h.node, from, msg);
    AcceptedIs(h.node, from, msg);
    FollowDiscipline(h.node, from, msg.epoch);
    var r := HandleAppend(h.node, from, msg);
    AcceptSends(strict, m, w', id, h.node, from, msg);
    AcceptSaved(strict, m, group, w, id, h, from, msg);
    NoRows(w'.h, r.node, w'.members[id].log);
    if strict {
      AcceptStrict(m, group, w, w', id, h, from, msg);
    }
  }

  lemma AcceptSends(strict: bool, m: Machine, w': World, id: Id, s: Node, from: Id, msg: Msg)
    requires msg.Append? && msg.epoch >= s.epoch && PrevOK(Follow(s, from, msg.epoch).node, msg)
    requires from in w'.members && from != id && id in w'.members && msg.epoch in w'.h.reigns
    requires LastSeq(Received(Follow(s, from, msg.epoch).node, msg)) == |w'.members[id].log|
    requires strict ==> AckedUpTo(w'.h, id, msg.epoch, |w'.members[id].log|)
    ensures SendsOK(strict, m, w', id, HandleAppend(s, from, msg).actions)
  {
    hide Merge, Follow, PrevOK, SendsOK, ApplyRange, HandleAppend;
    AcceptedIs(s, from, msg);
    FollowDiscipline(s, from, msg.epoch);
    var f := Follow(s, from, msg.epoch);
    var s2 := Received(f.node, msg);
    var g := Merge(f.node.baseSeq, Merged(f.node.log, None), msg.entries);
    var applies := if msg.commit > s2.commit then ApplyRange(s2, s2.applied, Min(msg.commit, LastSeq(s2))) else [];
    var persist := if g.from.Some? then [PersistLog(g.from.value)] else [];
    ApplyRangeShape(s2, s2.applied, Min(msg.commit, LastSeq(s2)));
    ReplyOK(strict, m, w', id, from, msg.epoch, LastSeq(s2), true, f.actions + persist + applies);
  }

  /** An accepted Append is stored, given what the merge did to the full log. */
  lemma AcceptStored(m: Machine, s: Node, disk: Disk, from: Id, msg: Msg, full: seq<Entry>, t: seq<Entry>)
    requires msg.Append? && s.epoch <= msg.epoch && PrevOK(Follow(s, from, msg.epoch).node, msg)
    requires Synced(disk, s) && SuffixOf(s, full) && Numbered(full) && Numbered(t)
    requires var g := Merge(s.baseSeq, Merged(s.log, None), msg.entries);
             && s.baseSeq <= |Adopt(full, t)| && g.log == Adopt(full, t)[s.baseSeq..]
             && (Adopt(full, t) == full ==> g == Merged(s.log, None))
             && (Adopt(full, t) != full ==> ConflictAt(s.baseSeq, full, t, g.from))
    ensures var r := HandleAppend(s, from, msg); Synced(Save(m, r.node, disk, r.actions), r.node)
  {
    hide Merge, Follow, PrevOK, Save, ApplyRange, HandleAppend, Synced, Adopt, SuffixOf, Numbered, ConflictAt;
    FollowDiscipline(s, from, msg.epoch);
    AcceptedIs(s, from, msg);
    var f := Follow(s, from, msg.epoch);
    var s2 := Received(f.node, msg);
    var g := Merge(f.node.baseSeq, Merged(f.node.log, None), msg.entries);
    var post := Applied(s2, msg) + [Send(from, AppendResp(f.node.epoch, LastSeq(s2), true))];
    ApplyRangeShape(s2, s2.applied, Min(msg.commit, LastSeq(s2)));
    ReceivedSaved(m, full, t, disk, s, Caught(s2, msg), g.from, f.actions, post);
    var persist := if g.from.Some? then [PersistLog(g.from.value)] else [];
    assert f.actions + persist + Applied(s2, msg) + [Send(from, AppendResp(f.node.epoch, LastSeq(s2), true))]
        == f.actions + persist + post;
  }

  lemma AcceptSaved(strict: bool, m: Machine, group: seq<Id>, w: World, id: Id, h: Host, from: Id, msg: Msg)
    requires Here(strict, m, group, w, id, h) && msg.Append? && h.node.epoch <= msg.epoch
    requires AppendOK(strict, w, from, msg) && PrevOK(h.node, msg)
    ensures var r := HandleAppend(h.node, from, msg); Synced(Save(m, r.node, h.disk, r.actions), r.node)
  {
    hide Inv, CommitInv, CommittedPrefix, Grows, Merge, Follow, PrevOK, Save, HandleAppend, Synced, StrictHost, VoteBacked;
    var s, e := h.node, msg.epoch;
    JoinFollows(strict, m, group, w, id, h, from, e);
    var w1, f := Join(w, id, from, e), Follow(s, from, e);
    AppendGrows(strict, m, w, w1, id, from, msg);
    SameGuard(s, from, msg);
    FollowDiscipline(s, from, e);
    ReceivedIsAdopted(strict, w1, id, f.node, from, msg);
    var k := msg.prevSeq + |msg.entries|;
    LogsOf(w, id, e);
    TargetNumbered(w, e, k);
    AcceptStored(m, s, h.disk, from, msg, w.members[id].log, w.h.reigns[e].log[..k]);
  }

  lemma TargetNumbered(w: World, e: nat, k: nat)
    requires Inv(w) && e in w.h.reigns && k <= |w.h.reigns[e].log|
    ensures Numbered(w.h.reigns[e].log[..k])
  {
    assert ReignOK(w, e, w.h.reigns[e]);
  }

  lemma AcceptStrict(m: Machine, group: seq<Id>, w: World, w': World, id: Id, h: Host, from: Id, msg: Msg)
    requires Here(true, m, group, w, id, h) && msg.Append? && h.node.epoch <= msg.epoch
    requires AppendOK(true, w, from, msg) && PrevOK(h.node, msg) && id in w'.members
    requires var s2 := Received(Follow(h.node, from, msg.epoch).node, msg);
             var k := msg.prevSeq + |msg.entries|;
             && k <= |w.h.reigns[msg.epoch].log|
             && w'.members[id].log == Adopt(w.members[id].log, w.h.reigns[msg.epoch].log[..k])
             && SuffixOf(s2, w'.members[id].log) && Numbered(w'.members[id].log)
             && s2.baseSeq <= s2.applied <= Caught(s2, msg).applied <= |w'.members[id].log|
    ensures StrictTurn(m, w', id, h.disk.file, HandleAppend(h.node, from, msg), h.node.applied)
  {
    hide Inv, CommitInv, CommittedPrefix, Grows, Merge, Follow, PrevOK, Paced, ApplyRange, HandleAppend, Synced, Mirrors;
    var s, e := h.node, msg.epoch;
    var k := msg.prevSeq + |msg.entries|;
    JoinFollows(true, m, group, w, id, h, from, e);
    var w1, f := Join(w, id, from, e), Follow(s, from, e);
    SameGuard(s, from, msg);
    FollowDiscipline(s, from, e);
    AcceptedIs(s, from, msg);
    ReceivedFile(m, w1, id, h, e, k, f.node);
    var s2 := Received(f.node, msg);
    var g := Merge(f.node.baseSeq, Merged(f.node.log, None), msg.entries);
    var persist := if g.from.Some? then [PersistLog(g.from.value)] else [];
    AppliesPaced(m, w'.members[id].log, s2, msg);
    AcceptedPaced(m, w'.members[id].log, Caught(s2, msg).applied, f.actions + persist, Applied(s2, msg),
      [Send(from, AppendResp(e, LastSeq(s2), true))], s2.applied, Caught(s2, msg).applied);
    NoRows(w'.h, HandleAppend(s, from, msg).node, w'.members[id].log);
  }

  lemma AppendStep(strict: bool, m: Machine, group: seq<Id>, w: World, id: Id, h: Host, from: Id, msg: Msg)
    returns (w': World)
    requires Here(strict, m, group, w, id, h)
    requires msg.Append? && from in w.members && from != id && MsgOK(strict, m, w, from, id, msg)
    requires strict ==> TruthfulAck(h.node, msg)
    ensures Answers(strict, m, group, w, w', id, h, Handle(h.node, from, msg))
  {
    hide Inv, CommitInv, Grows, Answers, Merge, Follow, TruthfulAck, ApplyRange, PrevOK, StrictHost, Mirrors;
    if msg.epoch < h.node.epoch {
      w' := w;
      StaleStep(strict, m, group, w, id, h, from);
    } else {
      SameGuard(h.node, from, msg);
      var s1 := Follow(h.node, from, msg.epoch).node;
      if PrevOK(s1, msg) {
        w' := AcceptStep(strict, m, group, w, id, h, from, msg);
      } else {
        w' := Join(w, id, from, msg.epoch);
        assert msg.prevSeq > 0 by { PrevZero(s1, msg); }
        RejectStep(strict, m, group, w, id, h, from, msg.epoch, Max(Min(LastSeq(s1), msg.prevSeq - 1), s1.baseSeq));
      }
    }
  }

  lemma PrevZero(s: Node, msg: Msg)
    requires msg.Append? && !PrevOK(s, msg)
    ensures msg.prevSeq > 0
  {
  }
}
