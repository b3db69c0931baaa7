/**
What a turn leaves on disk: the stored log and the database file.

A failing command leaves the applied marker behind the node's applied mark,
and compaction may move the snapshot point past the marker; the file is right
when its database is the replay of every prefix between the two.
*/
module Storage {
  import opened Options
  import opened Quorum
  import opened Cluster
  import opened Turns
  import opened Protocol
  import opened Mirror

  // ---------------------------------------------------------------- the stored log

  lemma {:induction false} FromConcat(a: seq<Entry>, b: seq<Entry>, q: nat)
    ensures EntriesFrom(a + b, q) == EntriesFrom(a, q) + EntriesFrom(b, q)
    decreases |a|
  {
    hide EntriesFrom;
    if a == [] {
      assert a + b == b;
      FromNothing(q);
    } else {
      FromConcat(a[1..], b, q);
      FromCons(a[0], a[1..], q);
      FromCons(a[0], a[1..] + b, q);
      assert a == [a[0]] + a[1..] && a + b == [a[0]] + (a[1..] + b);
    }
  }

  lemma FromNothing(q: nat)
    ensures EntriesFrom([], q) == []
  {
  }

  lemma FromCons(x: Entry, rest: seq<Entry>, q: nat)
    ensures EntriesFrom([x] + rest, q) == (if x.seqno >= q then [x] else []) + EntriesFrom(rest, q)
    ensures EntriesBelow([x] + rest, q) == (if x.seqno < q then [x] else []) + EntriesBelow(rest, q)
  {
    assert ([x] + rest)[1..] == rest;
  }

  lemma {:induction false} FromBelow(log: seq<Entry>, q: nat, lo: nat)
    ensures EntriesFrom(EntriesBelow(log, q), lo) == EntriesBelow(EntriesFrom(log, lo), q)
    decreases |log|
  {
    if log != [] {
      FromBelow(log[1..], q, lo);
      FromCons(log[0], EntriesBelow(log[1..], q), lo);
      FromCons(log[0], EntriesFrom(log[1..], lo), q);
      assert [] + EntriesBelow(log[1..], q) == EntriesBelow(log[1..], q);
      assert [] + EntriesFrom(log[1..], lo) == EntriesFrom(log[1..], lo);
    }
  }

  lemma {:induction false} NothingBetween(log: seq<Entry>, q: nat)
    ensures EntriesFrom(EntriesBelow(log, q), q) == []
    decreases |log|
  {
    if log != [] {
      NothingBetween(log[1..], q);
      FromCons(log[0], EntriesBelow(log[1..], q), q);
      assert [] + EntriesBelow(log[1..], q) == EntriesBelow(log[1..], q);
    }
  }

  lemma {:induction false} FromFrom(log: seq<Entry>, lo: nat, hi: nat)
    ensures EntriesFrom(EntriesFrom(log, lo), hi) == EntriesFrom(log, Max(lo, hi))
    decreases |log|
  {
    if log != [] {
      FromFrom(log[1..], lo, hi);
      FromCons(log[0], EntriesFrom(log[1..], lo), hi);
      assert [] + EntriesFrom(log[1..], lo) == EntriesFrom(log[1..], lo);
    }
  }

  lemma {:induction false} BelowSuffix(log: seq<Entry>, base: nat, q: nat)
    requires forall i :: 0 <= i < |log| ==> log[i].seqno == base + 1 + i
    requires base < q <= base + |log| + 1
    ensures EntriesBelow(log, q) == log[..q - base - 1]
    decreases |log|
  {
    if log != [] {
      if q == base + 1 {
        BelowNothing(log, base, q);
      } else {
        BelowSuffix(log[1..], base + 1, q);
      }
    }
  }

  lemma {:induction false} BelowNothing(log: seq<Entry>, base: nat, q: nat)
    requires forall i :: 0 <= i < |log| ==> log[i].seqno == base + 1 + i
    requires q <= base + 1
    ensures EntriesBelow(log, q) == []
    decreases |log|
  {
    if log != [] {
      BelowNothing(log[1..], base + 1, q);
    }
  }

  lemma {:induction false} FromEverything(log: seq<Entry>, q: nat)
    requires forall e :: e in log ==> e.seqno >= q
    ensures EntriesFrom(log, q) == log
    decreases |log|
  {
    if log != [] {
      FromEverything(log[1..], q);
    }
  }

  /** Everything the node holds above its snapshot point is on disk; stale entries may lie below it. */
  predicate Synced(disk: Disk, s: Node) {
    SameMeta(disk, s) && EntriesFrom(disk.log, s.baseSeq + 1) == s.log
  }

  /** No stored entry lies at or below the snapshot point, so a restart loads exactly the node's log. */
  predicate CleanDisk(disk: Disk) {
    forall e :: e in disk.log ==> e.seqno > disk.baseSeq
  }

  /** Truncating the store at `q` and appending the new tail stores the new log. */
  lemma SaveLogStores(disk: Disk, b: nat, was: seq<Entry>, s': Node, q: nat)
    requires EntriesFrom(disk.log, b + 1) == was && s'.baseSeq == b
    requires forall i :: 0 <= i < |was| ==> was[i].seqno == b + 1 + i
    requires forall i :: 0 <= i < |s'.log| ==> s'.log[i].seqno == b + 1 + i
    requires b < q <= b + |was| + 1 && q <= b + |s'.log| + 1
    requires was[..q - b - 1] == s'.log[..q - b - 1]
    ensures EntriesFrom(SaveLog(disk, s', q).log, b + 1) == s'.log
  {
    hide EntriesFrom, EntriesBelow;
    var front, tail := s'.log[..q - b - 1], s'.log[q - b - 1..];
    assert EntriesFrom(EntriesBelow(disk.log, q), b + 1) == front by {
      FromBelow(disk.log, q, b + 1);
      BelowSuffix(was, b, q);
    }
    assert EntriesFrom(EntriesFrom(s'.log, q), b + 1) == tail by {
      FromFrom(s'.log, q, b + 1);
      EntriesFromSuffix(s'.log, b, q);
    }
    FromConcat(EntriesBelow(disk.log, q), EntriesFrom(s'.log, q), b + 1);
    assert s'.log == front + tail;
  }

  // ---------------------------------------------------------------- the database file

  /** The file holds the replay of `full[..k]`, and every command between its marker and `k` had no effect. */
  ghost predicate FileOK(m: Machine, f: DbFile, full: seq<Entry>, k: nat) {
    && f.marker <= k <= |full|
    && forall j {:trigger full[..j]} :: f.marker <= j <= k ==> Replay(m, full[..j]) == f.db
  }

  /** Carrying out `actions` moves the file from `full[..k]` to `full[..k']`, and snapshots are captured at `goal`. */
  ghost predicate Paced(m: Machine, full: seq<Entry>, goal: nat, actions: seq<Action>, k: nat, k': nat)
    decreases |actions|
  {
    if actions == [] then k == k'
    else
      match actions[0]
      case Apply(e) => k < |full| && full[k] == e && Paced(m, full, goal, actions[1..], k + 1, k')
      case ApplySnapshot(q, data) =>
        k <= q <= |full| && data.db == Replay(m, full[..q]) && Paced(m, full, goal, actions[1..], q, k')
      case NeedSnapshot(_) => k == goal && Paced(m, full, goal, actions[1..], k, k')
      case _ => Paced(m, full, goal, actions[1..], k, k')
  }

  predicate Idle(a: Action) {
    !a.Apply? && !a.ApplySnapshot? && !a.NeedSnapshot?
  }

  lemma {:induction false} IdlePaced(m: Machine, full: seq<Entry>, goal: nat, actions: seq<Action>, k: nat)
    requires forall a :: a in actions ==> Idle(a) || (a.NeedSnapshot? && k == goal)
    ensures Paced(m, full, goal, actions, k, k)
    decreases |actions|
  {
    if actions != [] {
      assert actions[0] in actions;
      IdlePaced(m, full, goal, actions[1..], k);
    }
  }

  lemma {:induction false} PacedConcat(m: Machine, full: seq<Entry>, goal: nat, a: seq<Action>, b: seq<Action>,
          k: nat, k1: nat, k2: nat)
    requires Paced(m, full, goal, a, k, k1) && Paced(m, full, goal, b, k1, k2)
    ensures Paced(m, full, goal, a + b, k, k2)
    decreases |a|
  {
    if a == [] {
      assert a + b == b;
    } else {
      assert (a + b)[1..] == a[1..] + b;
      var next := if a[0].Apply? then k + 1 else if a[0].ApplySnapshot? then a[0].seqno else k;
      PacedConcat(m, full, goal, a[1..], b, next, k1, k2);
    }
  }

  /** Applying the entries in `(lo, hi]` one by one. */
  lemma {:induction false} ApplyRangePaced(m: Machine, s: Node, full: seq<Entry>, goal: nat, lo: nat, hi: nat)
    requires SuffixOf(s, full) && Numbered(full)
    requires s.baseSeq <= lo <= hi <= |full|
    ensures Paced(m, full, goal, ApplyRange(s, lo, hi), lo, hi)
    decreases hi - lo
  {
    if lo < hi {
      ReadAt(s, full, lo + 1);
      ApplyRangePaced(m, s, full, goal, lo + 1, hi);
      var rest := ApplyRange(s, lo + 1, hi);
      assert ApplyRange(s, lo, hi) == [Apply(full[lo])] + rest;
      assert ([Apply(full[lo])] + rest)[1..] == rest;
    }
  }

  lemma ApplyOneFile(m: Machine, f: DbFile, full: seq<Entry>, k: nat)
    requires FileOK(m, f, full, k) && k < |full| && Numbered(full)
    ensures FileOK(m, ApplyFile(m, f, full[k]), full, k + 1)
  {
    assert full[..k + 1][..k] == full[..k];
    assert full[..k + 1][k] == full[k];
  }

  /** After a paced turn the file is right at the new position. */
  lemma {:induction false} PacedFile(m: Machine, s: Node, disk: Disk, full: seq<Entry>, goal: nat,
          actions: seq<Action>, k: nat, k': nat)
    requires FileOK(m, disk.file, full, k) && Paced(m, full, goal, actions, k, k') && Numbered(full)
    ensures FileOK(m, Save(m, s, disk, actions).file, full, k')
    decreases |actions|
  {
    if actions != [] {
      var d := SaveOne(m, s, disk, actions[0]);
      if actions[0].Apply? {
        ApplyOneFile(m, disk.file, full, k);
        PacedFile(m, s, d, full, goal, actions[1..], k + 1, k');
      } else if actions[0].ApplySnapshot? {
        PacedFile(m, s, d, full, goal, actions[1..], actions[0].seqno, k');
      } else {
        PacedFile(m, s, d, full, goal, actions[1..], k, k');
      }
    }
  }

  /** A snapshot sent during a paced turn ships the replay of everything the node declares. */
  lemma {:induction false} PacedSnapshot(m: Machine, s: Node, disk: Disk, full: seq<Entry>, goal: nat,
          actions: seq<Action>, k: nat, k': nat, p: Packet)
    requires FileOK(m, disk.file, full, k) && Paced(m, full, goal, actions, k, k') && Numbered(full) && goal <= |full|
    requires p in Sends(m, s, disk, actions) && p.msg.InstallSnapshot? && Send(p.dst, p.msg) !in actions
    ensures p.msg.epoch == s.epoch && p.msg.lastSeq == SnapshotSeq(s) && p.msg.lastEpoch == SnapshotEpoch(s)
    ensures p.msg.data.db == Replay(m, full[..goal])
    decreases |actions|
  {
    var d := SaveOne(m, s, disk, actions[0]);
    if p in SendOne(s, disk, actions[0]) {
      assert actions[0].NeedSnapshot?;
    } else if actions[0].Apply? {
      ApplyOneFile(m, disk.file, full, k);
      PacedSnapshot(m, s, d, full, goal, actions[1..], k + 1, k', p);
    } else if actions[0].ApplySnapshot? {
      PacedSnapshot(m, s, d, full, goal, actions[1..], actions[0].seqno, k', p);
    } else {
      PacedSnapshot(m, s, d, full, goal, actions[1..], k, k', p);
    }
  }

  /** Every entry applied during a paced turn is the entry of the whole log at its place. */
  lemma {:induction false} PacedApplies(m: Machine, full: seq<Entry>, goal: nat, actions: seq<Action>, k: nat,
          k': nat, e: Entry)
    requires Paced(m, full, goal, actions, k, k') && Numbered(full) && Apply(e) in actions
    ensures k < e.seqno <= k' && e.seqno <= |full| && full[e.seqno - 1] == e
    ensures k <= k'
    decreases |actions|
  {
    var a := actions[0];
    var next := if a.Apply? then k + 1 else if a.ApplySnapshot? then a.seqno else k;
    PacedForward(m, full, goal, actions[1..], next, k');
    if a != Apply(e) {
      PacedApplies(m, full, goal, actions[1..], next, k', e);
    }
  }

  lemma {:induction false} PacedForward(m: Machine, full: seq<Entry>, goal: nat, actions: seq<Action>, k: nat, k': nat)
    requires Paced(m, full, goal, actions, k, k')
    ensures k <= k'
    decreases |actions|
  {
    if actions != [] {
      var a := actions[0];
      PacedForward(m, full, goal, actions[1..], if a.Apply? then k + 1 else if a.ApplySnapshot? then a.seqno else k,
          k');
    }
  }

  /** A restart resumes at the marker or at the snapshot point, whichever is later; nothing in between had an effect. */
  lemma RestartFile(m: Machine, f: DbFile, full: seq<Entry>, applied: nat, base: nat)
    requires FileOK(m, f, full, applied) && base <= applied
    ensures Max(f.marker, base) <= applied
    ensures FileOK(m, f, full, Max(f.marker, base))
  {
  }

  /** The file does not notice a change of the log above the applied position. */
  lemma FileAgrees(m: Machine, f: DbFile, full: seq<Entry>, full': seq<Entry>, k: nat)
    requires FileOK(m, f, full, k) && k <= |full'| && full[..k] == full'[..k]
    ensures FileOK(m, f, full', k)
  {
    forall j | f.marker <= j <= k
      ensures Replay(m, full'[..j]) == f.db
    {
      assert full'[..j] == full'[..k][..j] == full[..j];
    }
  }
}
