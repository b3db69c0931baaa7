/**
How a concrete node mirrors a protocol member: its log is the part of the
member's whole log above the snapshot point.  Reading the compacted node gives
what reading the whole log would give.
*/
module Mirror {
  import opened Options
  import opened Quorum
  import opened Collections
  import opened Groups
  import opened Protocol

  predicate RowsFor(ps: seq<Progress>, peers: seq<Id>) {
    |ps| == |peers| && forall i :: 0 <= i < |ps| ==> ps[i].id == peers[i]
  }

  ghost predicate RoleMirrors(s: Node, a: Member) {
    match s.role
    case Follower => a.standing.Following?
    case Candidate(votes) => a.standing.Running? && NoRepeats(votes) && a.standing.votes == set v | v in votes
    case Leader(next, matched) =>
      a.standing.Leading? && RowsFor(next, Others(s.group, s.me)) && RowsFor(matched, Others(s.group, s.me))
  }

  /** Compaction: the node keeps the suffix of the whole log above its snapshot point. */
  ghost predicate SuffixOf(s: Node, full: seq<Entry>) {
    && s.baseSeq <= |full|
    && s.log == full[s.baseSeq..]
    && s.baseEpoch == (if s.baseSeq == 0 then 0 else full[s.baseSeq - 1].epoch)
  }

  ghost predicate Mirrors(s: Node, a: Member) {
    && s.epoch == a.epoch && s.votedFor == a.voted && s.commit == a.commit
    && SuffixOf(s, a.log)
    && RoleMirrors(s, a)
  }

  /** Every reader of a compacted node agrees with the whole log: the last entry. */
  lemma ReadLast(s: Node, full: seq<Entry>)
    requires SuffixOf(s, full) && Numbered(full)
    ensures LastSeq(s) == |full| && LastEpochOf(s) == LastEpoch(full)
  {
    if s.log != [] {
      assert s.log[|s.log| - 1] == full[|full| - 1];
    }
  }

  /** Every reader of a compacted node agrees with the whole log: the entry and the epoch at `q`. */
  lemma ReadAt(s: Node, full: seq<Entry>, q: nat)
    requires SuffixOf(s, full)
    ensures EntryAt(s, q) == if s.baseSeq < q <= |full| then Some(full[q - 1]) else None
    ensures EpochAt(s, q) == if s.baseSeq <= q <= |full| then Some(if q == 0 then 0 else full[q - 1].epoch) else None
  {
  }

  /** The position and epoch a snapshot declares are those of the last applied entry of the whole log. */
  lemma SnapshotPoint(s: Node, full: seq<Entry>)
    requires SuffixOf(s, full) && Numbered(full)
    requires s.baseSeq <= s.applied <= |full|
    ensures SnapshotSeq(s) == s.applied
    ensures SnapshotEpoch(s) == if s.applied == 0 then 0 else full[s.applied - 1].epoch
  {
    ReadAt(s, full, s.applied);
  }

  /** Compaction drops only applied entries and keeps the rest of the whole log. */
  lemma CompactKeepsSuffix(s: Node, full: seq<Entry>, keepTail: nat)
    requires SuffixOf(s, full) && Numbered(full)
    requires s.baseSeq <= s.applied <= |full|
    ensures SuffixOf(Compact(s, keepTail), full)
    ensures s.baseSeq <= Compact(s, keepTail).baseSeq <= s.applied
    ensures Compact(s, keepTail) == s || Compact(s, keepTail).baseSeq + keepTail == s.applied
  {
    if s.applied >= keepTail {
      ReadAt(s, full, s.applied - keepTail);
    }
  }

  /**
  Compaction, exactly: the snapshot point moves to `keepTail` below the applied mark
  unless it is there already, the entries above it stay, and nothing else changes.
  */
  lemma CompactExactly(s: Node, keepTail: nat)
    requires s.baseSeq <= s.applied <= s.baseSeq + |s.log|
    ensures var t := Compact(s, keepTail);
            && t.baseSeq == Max(s.baseSeq, if s.applied >= keepTail then s.applied - keepTail else 0)
            && t.log == s.log[t.baseSeq - s.baseSeq..]
            && (t == s <==> s.applied <= s.baseSeq + keepTail)
            && (t != s ==> |t.log| == |s.log| - (s.applied - s.baseSeq) + keepTail)
            && t == s.(log := t.log, baseSeq := t.baseSeq, baseEpoch := t.baseEpoch)
            && (t != s ==> t.baseEpoch == s.log[t.baseSeq - s.baseSeq - 1].epoch)
  {
    var newBase := if s.applied >= keepTail then s.applied - keepTail else 0;
    if newBase <= s.baseSeq {
      assert Compact(s, keepTail) == s && s.log[0..] == s.log;
    } else {
      assert EntryAt(s, newBase) == Some(s.log[newBase - s.baseSeq - 1]);
      assert Compact(s, keepTail).baseSeq == newBase;
    }
  }

  lemma SuffixNumbered(s: Node, full: seq<Entry>)
    requires SuffixOf(s, full) && Numbered(full)
    ensures forall i :: 0 <= i < |s.log| ==> s.log[i].seqno == s.baseSeq + 1 + i
  {
  }

  /** The entries a leader ships from `q` on are the tail of the whole log. */
  lemma {:induction false} EntriesFromSuffix(log: seq<Entry>, base: nat, q: nat)
    requires forall i :: 0 <= i < |log| ==> log[i].seqno == base + 1 + i
    ensures EntriesFrom(log, q) == if q <= base + 1 then log else if q - base - 1 <= |log| then log[q - base - 1..] else []
    decreases |log|
  {
    if log != [] {
      EntriesFromSuffix(log[1..], base + 1, q);
      assert log == [log[0]] + log[1..];
      if q > base + 1 && q - base - 1 <= |log| {
        assert log[1..][q - base - 2..] == log[q - base - 1..];
      }
    }
  }

  // ---------------------------------------------------------------- merging received entries

  /** Two logs that agree on an epoch agree on everything up to it. */
  ghost predicate Matching(a: seq<Entry>, b: seq<Entry>) {
    forall i {:trigger a[i], b[i]} :: 0 <= i < |a| && i < |b| && a[i].epoch == b[i].epoch ==> a[..i + 1] == b[..i + 1]
  }

  /** The whole log once entry `j` of the leader prefix `t` is merged. */
  function Grown(full: seq<Entry>, t: seq<Entry>, j: nat): seq<Entry>
    requires j < |t|
  {
    if t[..j + 1] <= full then full else t[..j + 1]
  }

  lemma GrownMatches(base: nat, full: seq<Entry>, t: seq<Entry>, j: nat)
    requires base <= |full| && j < |t| && j <= |full|
    requires full[..j] == t[..j] && Matching(full, t)
    requires full[..Min(base, |t|)] == t[..Min(base, |t|)]
    ensures var full' := Grown(full, t, j);
            && Matching(full', t) && j + 1 <= |full'| && full'[..j + 1] == t[..j + 1]
            && Adopt(full', t) == Adopt(full, t)
            && (full' != full ==> Adopt(full, t) == t && t != full)
            && (base < j + 1 || full' == full) && base <= |full'|
            && full'[..Min(base, |t|)] == t[..Min(base, |t|)]
  {
    var full' := Grown(full, t, j);
    if base >= j + 1 {
      assert full[..j + 1] == full[..Min(base, |t|)][..j + 1] == t[..Min(base, |t|)][..j + 1] == t[..j + 1];
    }
    if t[..j + 1] <= full {
      assert full[..j + 1] == t[..j + 1];
    } else {
      AdoptChanged(full, t, j);
      assert t[..j + 1][..Min(base, |t|)] == t[..Min(base, |t|)];
      forall i {:trigger full'[i], t[i]} | 0 <= i < |full'| && i < |t| && full'[i].epoch == t[i].epoch
        ensures full'[..i + 1] == t[..i + 1]
      {
        assert t[..j + 1][..i + 1] == t[..i + 1];
      }
    }
  }

  /** One received entry, seen on the whole log: position `j` of the leader prefix `t`. */
  lemma MergeOneIsAdopt(base: nat, full: seq<Entry>, t: seq<Entry>, j: nat, from: Option<nat>)
    requires base <= |full| && j < |t| && j <= |full| && Numbered(t)
    requires full[..j] == t[..j] && Matching(full, t)
    requires full[..Min(base, |t|)] == t[..Min(base, |t|)]
    ensures var g := MergeOne(base, Merged(full[base..], from), t[j]);
            var full' := Grown(full, t, j);
            && base <= |full'| && g.log == full'[base..]
            && g.from == (if full' == full || from.Some? then from else Some(j + 1))
  {
    var g := MergeOne(base, Merged(full[base..], from), t[j]);
    if j < base {
      assert full[..j + 1] == full[..Min(base, |t|)][..j + 1] == t[..j + 1];
    } else if j < |full| && full[j].epoch == t[j].epoch {
      assert full[base..][j - base] == full[j];
      assert full[..j + 1] == t[..j + 1];
    } else {
      assert t[..j + 1][j] == t[j];
      assert j < |full| ==> full[base..][j - base] == full[j];
      assert full[base..][..j - base] == full[base..j];
      assert t[..j + 1] == t[..j] + [t[j]];
      assert g.log == t[..j + 1][base..];
    }
  }

  /** `from` names the first position where `t` conflicts with or extends `full`. */
  ghost predicate ConflictAt(base: nat, full: seq<Entry>, t: seq<Entry>, from: Option<nat>) {
    && from.Some? && base < from.value <= |t| && from.value <= |full| + 1
    && full[..from.value - 1] == t[..from.value - 1]
  }

  /** Folding in the entries `t[j..]` adopts the leader prefix `t` and truncates only at a conflict. */
  lemma {:induction false} MergeIsAdopt(base: nat, full: seq<Entry>, t: seq<Entry>, j: nat, from: Option<nat>)
    requires base <= |full| && j <= |t| && j <= |full| && Numbered(t)
    requires full[..j] == t[..j] && Matching(full, t)
    requires full[..Min(base, |t|)] == t[..Min(base, |t|)]
    ensures var g := Merge(base, Merged(full[base..], from), t[j..]);
            && base <= |Adopt(full, t)| && g.log == Adopt(full, t)[base..]
            && (Adopt(full, t) == full ==> g == Merged(full[base..], from))
            && (Adopt(full, t) != full && from.None? ==> ConflictAt(base, full, t, g.from))
            && (from.Some? ==> g.from == from)
    decreases |t| - j
  {
    hide Matching, Numbered, MergeOne, Grown;
    if j == |t| {
      assert t[..j] == t && full[..j] <= full;
      assert t[j..] == [];
    } else {
      MergeOneIsAdopt(base, full, t, j, from);
      GrownMatches(base, full, t, j);
      MergeUnfolds(base, Merged(full[base..], from), t, j);
      hide Merge, Adopt;
      var full' := Grown(full, t, j);
      var one := MergeOne(base, Merged(full[base..], from), t[j]);
      MergeIsAdopt(base, full', t, j + 1, one.from);
    }
  }

  lemma MergeUnfolds(base: nat, acc: Merged, t: seq<Entry>, j: nat)
    requires j < |t|
    ensures Merge(base, acc, t[j..]) == Merge(base, MergeOne(base, acc, t[j]), t[j + 1..])
  {
    assert t[j..][0] == t[j] && t[j..][1..] == t[j + 1..];
  }

  lemma AdoptChanged(full: seq<Entry>, t: seq<Entry>, j: nat)
    requires j < |t| && !(t[..j + 1] <= full)
    ensures Adopt(full, t) == t && t != full
  {
    assert t[..j + 1] <= t;
  }
}
