/**
Log repair: a leader whose Append is rejected backs up and tries again.

Each rejection strictly lowers the leader's row, so the exchange ends.  It ends
with the follower holding the leader's whole log, or, exactly when the follower
disagrees at the leader's own snapshot point, with a snapshot.
*/
module LogRepair {
  import opened Options
  import opened Quorum
  import opened Turns
  import opened Protocol
  import opened Mirror
  import opened Guards
  import opened SimMoves
  import opened SimAppend

  datatype Ending = Accepted(follower: Node) | SnapshotNeeded

  /** Every reply of the follower is delivered before the leader's next attempt. */
  function Repair(l: Node, f: Node, next: nat): Ending
    requires next > 0 && f.epoch <= l.epoch
    decreases next
  {
    var a := ReplicateOne(l, Progress(f.me, next));
    if !a.Send? then SnapshotNeeded
    else
      var r := HandleAppend(f, l.me, a.msg);
      var reply := r.actions[|r.actions| - 1];
      RepliesLast(f, l.me, a.msg);
      if reply.msg.ok then Accepted(r.node)
      else
        BacksUp(l, f, next);
        Repair(l, r.node, BackUp(l.baseSeq, next, reply.msg.matchSeq))
  }

  /** The last action of an Append turn is the answer; a rejection changes only who is followed. */
  lemma RepliesLast(f: Node, from: Id, msg: Msg)
    requires msg.Append? && f.epoch <= msg.epoch
    ensures var r := HandleAppend(f, from, msg);
            && r.actions != []
            && var reply := r.actions[|r.actions| - 1];
            && reply.Send? && reply.to == from && reply.msg.AppendResp? && (reply.msg.ok <==> PrevOK(f, msg))
            && r.node.epoch == msg.epoch && r.node.me == f.me
            && (!reply.msg.ok ==> r.node.log == f.log && r.node.baseSeq == f.baseSeq && r.node.baseEpoch == f.baseEpoch)
  {
    hide Merge, ApplyRange, Follow;
    FollowDiscipline(f, from, msg.epoch);
    SameGuard(f, from, msg);
    if PrevOK(f, msg) {
      AcceptedIs(f, from, msg);
    }
  }

  /** A rejected leader can always go lower. */
  lemma BacksUp(l: Node, f: Node, next: nat)
    requires next > 0 && f.epoch <= l.epoch
    requires var a := ReplicateOne(l, Progress(f.me, next)); a.Send? && !PrevOK(f, a.msg)
    ensures forall hint: nat :: 0 < BackUp(l.baseSeq, next, hint) < next
    ensures next > l.baseSeq
  {
  }

  /** The two logs agree on the leader's first `k` entries. */
  ghost predicate AgreeUpTo(lead: seq<Entry>, full: seq<Entry>, k: nat) {
    k <= |lead| && k <= |full| && lead[..k] == full[..k]
  }

  ghost predicate Repairable(l: Node, lead: seq<Entry>, f: Node, full: seq<Entry>) {
    && SuffixOf(l, lead) && Numbered(lead) && SuffixOf(f, full) && Numbered(full)
    && f.epoch <= l.epoch
    && Matching(full, lead)
    && AgreeUpTo(lead, full, Min(f.baseSeq, |lead|))
    && (forall i :: 0 <= i < |lead| ==> lead[i].epoch > 0)
  }

  lemma AgreeShorter(lead: seq<Entry>, full: seq<Entry>, k: nat, p: nat)
    requires AgreeUpTo(lead, full, k) && p <= k
    ensures AgreeUpTo(lead, full, p)
  {
    assert lead[..p] == lead[..k][..p] && full[..p] == full[..k][..p];
  }

  /** Where two matching logs agree is told by one epoch. */
  lemma AgreementAt(lead: seq<Entry>, full: seq<Entry>, p: nat)
    requires Matching(full, lead) && 0 < p <= |lead|
    ensures AgreeUpTo(lead, full, p) <==> p <= |full| && full[p - 1].epoch == lead[p - 1].epoch
  {
    if p <= |full| {
      if full[p - 1].epoch == lead[p - 1].epoch {
        assert full[..p - 1 + 1] == lead[..p - 1 + 1];
      } else {
        assert full[..p][p - 1] == full[p - 1] && lead[..p][p - 1] == lead[p - 1];
      }
    }
  }

  lemma Ships(l: Node, lead: seq<Entry>, id: Id, next: nat)
    requires SuffixOf(l, lead) && Numbered(lead) && l.baseSeq < next <= |lead| + 1
    ensures var p := next - 1;
            ReplicateOne(l, Progress(id, next))
              == Send(id, Append(l.epoch, p, if p == 0 then 0 else lead[p - 1].epoch, lead[p..], l.commit))
  {
    hide ReplicateOne, Numbered;
    ReplicateMsg(l, lead, Progress(id, next));
  }

  /** The check passes exactly where the logs agree. */
  lemma CheckMeansAgreement(lead: seq<Entry>, f: Node, full: seq<Entry>, msg: Msg)
    requires msg.Append? && SuffixOf(f, full) && Matching(full, lead) && AgreeUpTo(lead, full, Min(f.baseSeq, |lead|))
    requires msg.prevSeq <= |lead| && (msg.prevSeq > 0 ==> msg.prevEpoch == lead[msg.prevSeq - 1].epoch > 0)
    ensures PrevOK(f, msg) <==> AgreeUpTo(lead, full, msg.prevSeq)
  {
    hide Matching, AgreeUpTo;
    var p := msg.prevSeq;
    ReadAt(f, full, p);
    if p <= Min(f.baseSeq, |lead|) {
      AgreeShorter(lead, full, Min(f.baseSeq, |lead|), p);
    }
    if p > 0 {
      AgreementAt(lead, full, p);
    }
  }

  /** An accepted Append leaves the follower with the leader's whole log. */
  lemma AcceptedHoldsLead(l: Node, lead: seq<Entry>, f: Node, full: seq<Entry>, msg: Msg)
    requires Repairable(l, lead, f, full) && msg.Append? && msg.epoch == l.epoch && msg.prevSeq <= |lead|
    requires msg.entries == lead[msg.prevSeq..] && PrevOK(f, msg) && AgreeUpTo(lead, full, msg.prevSeq)
    requires f.baseSeq <= |lead|
    ensures SuffixOf(HandleAppend(f, l.me, msg).node, Adopt(full, lead))
  {
    hide Merge, ApplyRange, Follow, PrevOK, Matching, Numbered, HandleAppend;
    FollowDiscipline(f, l.me, msg.epoch);
    SameGuard(f, l.me, msg);
    AcceptedIs(f, l.me, msg);
    MergeIsAdopt(f.baseSeq, full, lead, msg.prevSeq, None);
    AdoptKeepsBase(f.baseSeq, full, lead, |lead|);
    assert lead[..|lead|] == lead;
    SameBase(f, full, Adopt(full, lead), Received(Follow(f, l.me, msg.epoch).node, msg));
  }

  lemma SameBase(f: Node, full: seq<Entry>, full': seq<Entry>, g: Node)
    requires SuffixOf(f, full) && f.baseSeq <= |full'| && full'[..f.baseSeq] == full[..f.baseSeq]
    requires g.baseSeq == f.baseSeq && g.baseEpoch == f.baseEpoch && g.log == full'[f.baseSeq..]
    ensures SuffixOf(g, full')
  {
    if f.baseSeq > 0 {
      assert full'[..f.baseSeq][f.baseSeq - 1] == full[..f.baseSeq][f.baseSeq - 1];
    }
  }

  /**
  Repair from any row above the leader's snapshot point: the follower ends with
  the leader's log as a prefix of its own, unless it disagrees at the leader's
  snapshot point, and exactly then a snapshot is needed.
  */
  lemma {:induction false} RepairConverges(l: Node, lead: seq<Entry>, f: Node, full: seq<Entry>, next: nat)
    requires Repairable(l, lead, f, full) && l.baseSeq < next <= |lead| + 1 && f.baseSeq <= |lead|
    ensures var e := Repair(l, f, next);
            && (e.SnapshotNeeded? <==> !AgreeUpTo(lead, full, l.baseSeq))
            && (e.Accepted? ==> SuffixOf(e.follower, if lead <= full then full else lead))
    decreases next
  {
    hide HandleAppend, Matching, Numbered, AgreeUpTo, PrevOK, SuffixOf;
    Ships(l, lead, f.me, next);
    var msg := ReplicateOne(l, Progress(f.me, next)).msg;
    CheckMeansAgreement(lead, f, full, msg);
    RepliesLast(f, l.me, msg);
    var r := HandleAppend(f, l.me, msg);
    var reply := r.actions[|r.actions| - 1];
    if reply.msg.ok {
      AcceptedHoldsLead(l, lead, f, full, msg);
      AgreeShorter(lead, full, next - 1, l.baseSeq);
    } else {
      BacksUp(l, f, next);
      var next' := BackUp(l.baseSeq, next, reply.msg.matchSeq);
      if next > l.baseSeq + 1 {
        SuffixKept(f, r.node, full);
        RepairConverges(l, lead, r.node, full, next');
      } else {
        assert Repair(l, r.node, next').SnapshotNeeded?;
      }
    }
  }

  lemma SuffixKept(f: Node, g: Node, full: seq<Entry>)
    requires SuffixOf(f, full) && g.log == f.log && g.baseSeq == f.baseSeq && g.baseEpoch == f.baseEpoch
    ensures SuffixOf(g, full)
  {
  }

  /** How often the follower refuses. */
  function Rejections(l: Node, f: Node, next: nat): nat
    requires next > 0 && f.epoch <= l.epoch
    decreases next
  {
    var a := ReplicateOne(l, Progress(f.me, next));
    if !a.Send? then 0
    else
      var r := HandleAppend(f, l.me, a.msg);
      var reply := r.actions[|r.actions| - 1];
      RepliesLast(f, l.me, a.msg);
      if reply.msg.ok then 0
      else
        BacksUp(l, f, next);
        1 + Rejections(l, r.node, BackUp(l.baseSeq, next, reply.msg.matchSeq))
  }

  /** A leader is refused at most once per row above its snapshot point. */
  lemma {:induction false} RejectionsBounded(l: Node, f: Node, next: nat)
    requires next > 0 && f.epoch <= l.epoch
    ensures Rejections(l, f, next) <= if next > l.baseSeq then next - l.baseSeq else 0
    decreases next
  {
    hide HandleAppend, PrevOK;
    var a := ReplicateOne(l, Progress(f.me, next));
    if a.Send? {
      RepliesLast(f, l.me, a.msg);
      var r := HandleAppend(f, l.me, a.msg);
      var reply := r.actions[|r.actions| - 1];
      if !reply.msg.ok {
        BacksUp(l, f, next);
        RejectionsBounded(l, r.node, BackUp(l.baseSeq, next, reply.msg.matchSeq));
      }
    }
  }

  /** A rejection points at the follower's end, at most just before the failed check, and never below its snapshot point. */
  lemma RejectHint(f: Node, from: Id, msg: Msg)
    requires msg.Append? && f.epoch <= msg.epoch && !PrevOK(f, msg)
    ensures msg.prevSeq > 0
    ensures var r := HandleAppend(f, from, msg);
            r.actions != [] && r.actions[|r.actions| - 1]
              == Send(from, AppendResp(msg.epoch, Max(Min(LastSeq(f), msg.prevSeq - 1), f.baseSeq), false))
  {
    hide Follow, Merge, ApplyRange;
    FollowDiscipline(f, from, msg.epoch);
    SameGuard(f, from, msg);
  }

  /** A follower that is merely behind refuses once: the hint takes the leader straight to its end. */
  lemma BehindOnce(l: Node, lead: seq<Entry>, f: Node, full: seq<Entry>, next: nat)
    requires Repairable(l, lead, f, full) && full <= lead && l.baseSeq <= |full| && |full| + 1 < next <= |lead| + 1
    ensures Rejections(l, f, next) == 1
  {
    hide HandleAppend, Matching, Numbered, AgreeUpTo, PrevOK, SuffixOf;
    AtFollowersEnd(l, lead, f, full);
    Ships(l, lead, f.me, next);
    var msg := ReplicateOne(l, Progress(f.me, next)).msg;
    CheckMeansAgreement(lead, f, full, msg);
    assert !AgreeUpTo(lead, full, next - 1) by { TooFar(lead, full, next - 1); }
    RejectHint(f, l.me, msg);
    RepliesLast(f, l.me, msg);
    BacksUp(l, f, next);
    var g := HandleAppend(f, l.me, msg).node;
    assert BackUp(l.baseSeq, next, |full|) == |full| + 1;
    SuffixKept(f, g, full);
    AcceptsAtEnd(l, lead, g, full);
  }

  lemma TooFar(lead: seq<Entry>, full: seq<Entry>, k: nat)
    requires k > |full|
    ensures !AgreeUpTo(lead, full, k)
  {
  }

  lemma AtFollowersEnd(l: Node, lead: seq<Entry>, f: Node, full: seq<Entry>)
    requires Repairable(l, lead, f, full) && full <= lead
    ensures LastSeq(f) == |full| && f.baseSeq <= |full| && AgreeUpTo(lead, full, |full|)
  {
    ReadLast(f, full);
    assert full[..|full|] == full;
  }

  lemma AcceptsAtEnd(l: Node, lead: seq<Entry>, g: Node, full: seq<Entry>)
    requires SuffixOf(l, lead) && Numbered(lead) && l.baseSeq <= |full| && full <= lead && g.epoch <= l.epoch
    requires SuffixOf(g, full) && Matching(full, lead) && AgreeUpTo(lead, full, Min(g.baseSeq, |lead|))
    requires AgreeUpTo(lead, full, |full|) && forall i :: 0 <= i < |lead| ==> lead[i].epoch > 0
    ensures Rejections(l, g, |full| + 1) == 0
  {
    hide HandleAppend, Matching, Numbered, AgreeUpTo, PrevOK, SuffixOf;
    Ships(l, lead, g.me, |full| + 1);
    var msg := ReplicateOne(l, Progress(g.me, |full| + 1)).msg;
    CheckMeansAgreement(lead, g, full, msg);
    RepliesLast(g, l.me, msg);
  }
}
