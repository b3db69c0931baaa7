/**
The decision core of one micro-quorum member: its state, its messages and one
pure function per entry point.  Every function returns the new state together
with the ordered list of actions the driver has to carry out.

`epoch` is Raft's term and `seqno` is Raft's log index.  Sequence numbers and
epochs are unbounded here.
*/
module Quorum {
  import opened Options

  /** Public keys; only their order and equality matter. */
  type Id = int
  type Command = seq<bv8>

  /** The replicated database; nothing is known about its values. */
  type Database(!new)


  datatype Entry = Entry(epoch: nat, seqno: nat, cmd: Command)

  /** What a snapshot ships: a database together with its applied marker. */
  datatype DbFile = DbFile(db: Database, marker: nat)

  datatype Msg =
    | VoteReq(epoch: nat, lastEpoch: nat, lastSeq: nat)
    | VoteResp(epoch: nat, granted: bool)
    | Append(epoch: nat, prevSeq: nat, prevEpoch: nat, entries: seq<Entry>, commit: nat)
    | AppendResp(epoch: nat, matchSeq: nat, ok: bool)
    | InstallSnapshot(epoch: nat, lastSeq: nat, lastEpoch: nat, data: DbFile)

  datatype Action =
    | PersistMeta
    | PersistLog(fromSeq: nat)
    | Send(to: Id, msg: Msg)
    | Apply(entry: Entry)
    | ApplySnapshot(seqno: nat, data: DbFile)
    | NeedSnapshot(peer: Id)
    | BecameLeader
    | LostLeadership

  /** One row of a leader's bookkeeping: a peer and a sequence number. */
  datatype Progress = Progress(id: Id, at: nat)

  datatype Role =
    | Follower
    | Candidate(votes: seq<Id>)
    | Leader(next: seq<Progress>, matched: seq<Progress>)

  datatype Node = Node(
    me: Id, group: seq<Id>, epoch: nat, votedFor: Option<Id>,
    log: seq<Entry>, baseSeq: nat, baseEpoch: nat,
    commit: nat, applied: nat, role: Role, leader: Option<Id>)

  datatype Outcome = Outcome(node: Node, actions: seq<Action>)

  // ---------------------------------------------------------------- reading a node

  predicate IsLeader(s: Node) {
    s.role.Leader?
  }

  function LeaderHint(s: Node): Option<Id> {
    if IsLeader(s) then Some(s.me) else if s.leader.Some? then s.leader else s.votedFor
  }

  function MajorityOf(s: Node): nat {
    |s.group| / 2 + 1
  }

  function LastSeq(s: Node): nat {
    if s.log == [] then s.baseSeq else s.log[|s.log| - 1].seqno
  }

  function LastEpochOf(s: Node): nat {
    if s.log == [] then s.baseEpoch else s.log[|s.log| - 1].epoch
  }

  function EntryAt(s: Node, q: nat): Option<Entry> {
    if q <= s.baseSeq then None
    else if q - s.baseSeq - 1 < |s.log| then Some(s.log[q - s.baseSeq - 1])
    else None
  }

  /** The epoch at `q` when it is known: in the log or at the snapshot point. */
  function EpochAt(s: Node, q: nat): Option<nat> {
    if q == s.baseSeq then Some(s.baseEpoch)
    else if EntryAt(s, q).Some? then Some(EntryAt(s, q).value.epoch)
    else None
  }

  function Others(group: seq<Id>, me: Id): seq<Id> {
    if group == [] then []
    else (if group[0] != me then [group[0]] else []) + Others(group[1..], me)
  }

  /** What a shipped snapshot declares: the sequence number and epoch the database corresponds to. */
  function SnapshotSeq(s: Node): nat {
    s.applied
  }

  function SnapshotEpoch(s: Node): nat {
    if s.applied == s.baseSeq then s.baseEpoch
    else if EntryAt(s, s.applied).Some? then EntryAt(s, s.applied).value.epoch
    else s.baseEpoch
  }

  /** A leader never points a peer at sequence number zero, so `next - 1` cannot wrap. */
  predicate WellFormed(s: Node) {
    s.role.Leader? ==> AllPositive(s.role.next)
  }

  // ---------------------------------------------------------------- creation

  function Insert(x: Id, s: seq<Id>): seq<Id> {
    if s == [] || x <= s[0] then [x] + s else [s[0]] + Insert(x, s[1..])
  }

  function Sort(s: seq<Id>): seq<Id> {
    if s == [] then [] else Insert(s[0], Sort(s[1..]))
  }

  function New(me: Id, group: seq<Id>): Node {
    Node(me, Sort(if me in group then group else group + [me]), 0, None, [], 0, 0, 0, 0, Follower, None)
  }

  function Max(a: nat, b: nat): nat {
    if a >= b then a else b
  }

  function Min(a: nat, b: nat): nat {
    if a <= b then a else b
  }

  /** Rebuild a node from what it persisted; `applied` is the database's marker. */
  function Restore(me: Id, group: seq<Id>, epoch: nat, votedFor: Option<Id>, baseSeq: nat, baseEpoch: nat,
                   log: seq<Entry>, applied: nat): Node {
    New(me, group).(epoch := epoch, votedFor := votedFor, baseSeq := baseSeq, baseEpoch := baseEpoch, log := log,
                    commit := Max(applied, baseSeq), applied := Max(applied, baseSeq))
  }

  /** Drop applied entries, keeping `keepTail` recent ones; unchanged when nothing can be dropped. */
  function Compact(s: Node, keepTail: nat): Node {
    var newBase := if s.applied >= keepTail then s.applied - keepTail else 0;
    if newBase <= s.baseSeq || EntryAt(s, newBase).None? then s
    else s.(log := s.log[newBase - s.baseSeq..], baseSeq := newBase, baseEpoch := EntryAt(s, newBase).value.epoch)
  }

  // ---------------------------------------------------------------- replication

  function ReplicateOne(s: Node, p: Progress): Action
    requires p.at > 0
  {
    var prevSeq := p.at - 1;
    if prevSeq < s.baseSeq then NeedSnapshot(p.id)
    else
      var prevEpoch := if EpochAt(s, prevSeq).Some? then EpochAt(s, prevSeq).value else 0;
      Send(p.id, Append(s.epoch, prevSeq, prevEpoch, EntriesFrom(s.log, p.at), s.commit))
  }

  function EntriesFrom(log: seq<Entry>, q: nat): seq<Entry> {
    if log == [] then []
    else (if log[0].seqno >= q then [log[0]] else []) + EntriesFrom(log[1..], q)
  }

  function Replicate(s: Node, next: seq<Progress>): seq<Action>
    requires AllPositive(next)
  {
    if next == [] then [] else [ReplicateOne(s, next[0])] + Replicate(s, next[1..])
  }

  function ReplicateAll(s: Node): seq<Action>
    requires WellFormed(s)
  {
    if s.role.Leader? then Replicate(s, s.role.next) else []
  }

  // ---------------------------------------------------------------- commitment

  function CountReached(matched: seq<Progress>, n: nat): nat {
    if matched == [] then 0
    else (if matched[0].at >= n then 1 else 0) + CountReached(matched[1..], n)
  }

  /** Copies of sequence number `n` a leader knows of, its own included. */
  function Replicas(matched: seq<Progress>, n: nat): nat {
    1 + CountReached(matched, n)
  }

  /** Scan upward from `n` while a majority holds the entry; remember the last one of the current epoch. */
  function ScanCommit(s: Node, n: nat, candidate: nat): nat
    requires s.role.Leader?
    decreases LastSeq(s) + 1 - n
  {
    if n > LastSeq(s) || Replicas(s.role.matched, n) < MajorityOf(s) then candidate
    else ScanCommit(s, n + 1, if EntryAt(s, n).Some? && EntryAt(s, n).value.epoch == s.epoch then n else candidate)
  }

  /** `Apply` actions for the known entries with sequence numbers in `(lo, hi]`. */
  function ApplyRange(s: Node, lo: nat, hi: nat): seq<Action>
    decreases hi - lo
  {
    if lo >= hi then []
    else (if EntryAt(s, lo + 1).Some? then [Apply(EntryAt(s, lo + 1).value)] else []) + ApplyRange(s, lo + 1, hi)
  }

  function ApplyCommitted(s: Node): Outcome {
    Outcome(s.(applied := Max(s.applied, s.commit)), ApplyRange(s, s.applied, s.commit))
  }

  function AdvanceCommit(s: Node): Outcome
    requires WellFormed(s)
  {
    if !s.role.Leader? then Outcome(s, [])
    else
      var point := ScanCommit(s, s.commit + 1, s.commit);
      var a := ApplyCommitted(s.(commit := point));
      Outcome(a.node, a.actions + if point > s.commit then ReplicateAll(a.node) else [])
  }

  // ---------------------------------------------------------------- elections

  function SendEach(peers: seq<Id>, msg: Msg): seq<Action> {
    if peers == [] then [] else [Send(peers[0], msg)] + SendEach(peers[1..], msg)
  }

  function TrackEach(peers: seq<Id>, at: nat): seq<Progress> {
    if peers == [] then [] else [Progress(peers[0], at)] + TrackEach(peers[1..], at)
  }

  lemma TrackEachAt(peers: seq<Id>, at: nat)
    ensures |TrackEach(peers, at)| == |peers|
    ensures forall i :: 0 <= i < |peers| ==> TrackEach(peers, at)[i] == Progress(peers[i], at)
  {
  }

  /** Become leader once a majority of votes is in. */
  function TryWin(s: Node): (r: Outcome)
    requires WellFormed(s)
    ensures WellFormed(r.node)
  {
    if !s.role.Candidate? || |s.role.votes| < MajorityOf(s) then Outcome(s, [])
    else
      var peers := Others(s.group, s.me);
      TrackEachAt(peers, LastSeq(s) + 1);
      var s' := s.(role := Leader(TrackEach(peers, LastSeq(s) + 1), TrackEach(peers, 0)));
      Outcome(s', [BecameLeader] + ReplicateAll(s'))
  }

  function TickElection(s: Node): (r: Outcome)
    requires WellFormed(s)
    ensures WellFormed(r.node)
  {
    if IsLeader(s) then Outcome(s, [])
    else
      var s' := s.(epoch := s.epoch + 1, votedFor := Some(s.me), leader := None, role := Candidate([s.me]));
      var won := TryWin(s');
      Outcome(won.node,
              [PersistMeta] + SendEach(Others(s.group, s.me), VoteReq(s'.epoch, LastEpochOf(s), LastSeq(s))) + won.actions)
  }

  function Heartbeat(s: Node): Outcome
    requires WellFormed(s)
  {
    Outcome(s, ReplicateAll(s))
  }

  /** Append a command to a leader's log; a node that does not lead is left alone. */
  function Propose(s: Node, cmd: Command): Outcome
    requires WellFormed(s)
  {
    if !IsLeader(s) then Outcome(s, [])
    else
      var q := LastSeq(s) + 1;
      var s' := s.(log := s.log + [Entry(s.epoch, q, cmd)]);
      var a := AdvanceCommit(s');
      Outcome(a.node, [PersistLog(q)] + ReplicateAll(s') + a.actions)
  }

  function BecomeFollower(s: Node, epoch: nat): Outcome {
    var s' := if epoch > s.epoch then s.(epoch := epoch, votedFor := None, leader := None) else s;
    Outcome(s'.(role := Follower),
            (if epoch > s.epoch then [PersistMeta] else []) + (if IsLeader(s) then [LostLeadership] else []))
  }

  // ---------------------------------------------------------------- messages

  function HandleVoteReq(s: Node, from: Id, m: Msg): Outcome
    requires m.VoteReq?
  {
    var f := if m.epoch > s.epoch then BecomeFollower(s, m.epoch) else Outcome(s, []);
    var s1 := f.node;
    var upToDate := m.lastEpoch > LastEpochOf(s1) || (m.lastEpoch == LastEpochOf(s1) && m.lastSeq >= LastSeq(s1));
    var granted := m.epoch == s1.epoch && upToDate && (s1.votedFor.None? || s1.votedFor == Some(from));
    var s2 := if granted && s1.votedFor.None? then s1.(votedFor := Some(from)) else s1;
    Outcome(s2, f.actions + (if granted && s1.votedFor.None? then [PersistMeta] else [])
                + [Send(from, VoteResp(s2.epoch, granted))])
  }

  function HandleVoteResp(s: Node, from: Id, m: Msg): Outcome
    requires WellFormed(s) && m.VoteResp?
  {
    if m.epoch > s.epoch then BecomeFollower(s, m.epoch)
    else if m.epoch != s.epoch || !m.granted then Outcome(s, [])
    else
      TryWin(if s.role.Candidate? && from !in s.role.votes
             then s.(role := Candidate(s.role.votes + [from])) else s)
  }

  datatype Merged = Merged(log: seq<Entry>, from: Option<nat>)

  /** Fold received entries into a log that starts above `base`, truncating at the first conflict. */
  function Merge(base: nat, acc: Merged, entries: seq<Entry>): Merged
    decreases |entries|
  {
    if entries == [] then acc
    else Merge(base, MergeOne(base, acc, entries[0]), entries[1..])
  }

  function MergeOne(base: nat, acc: Merged, e: Entry): Merged {
    if e.seqno <= base then acc
    else
      var i := e.seqno - base - 1;
      if i < |acc.log| && acc.log[i].epoch == e.epoch then acc
      else Merged((if i < |acc.log| then acc.log[..i] else acc.log) + [e],
                  if acc.from.None? then Some(e.seqno) else acc.from)
  }

  /** Following the sender of an Append or a snapshot; an unused vote is filled in with it. */
  function Follow(s: Node, from: Id, epoch: nat): Outcome {
    var f := BecomeFollower(s, epoch);
    var s1 := f.node.(leader := Some(from));
    if s1.votedFor.None? then Outcome(s1.(votedFor := Some(from)), f.actions + [PersistMeta])
    else Outcome(s1, f.actions)
  }

  /** The consistency check of an Append: the follower agrees with the leader just before the entries. */
  predicate PrevOK(s: Node, m: Msg)
    requires m.Append?
  {
    m.prevSeq == 0 || m.prevSeq < s.baseSeq || EpochAt(s, m.prevSeq) == Some(m.prevEpoch)
  }

  function HandleAppend(s: Node, from: Id, m: Msg): Outcome
    requires m.Append?
  {
    if m.epoch < s.epoch then Outcome(s, [Send(from, AppendResp(s.epoch, 0, false))])
    else
      var f := Follow(s, from, m.epoch);
      var s1 := f.node;
      if !PrevOK(s1, m) then
        var hint := Max(Min(LastSeq(s1), m.prevSeq - 1), s1.baseSeq);
        Outcome(s1, f.actions + [Send(from, AppendResp(s1.epoch, hint, false))])
      else
        var merged := Merge(s1.baseSeq, Merged(s1.log, None), m.entries);
        var s2 := s1.(log := merged.log);
        var persist := if merged.from.Some? then [PersistLog(merged.from.value)] else [];
        var matchSeq := LastSeq(s2);
        var a := if m.commit > s2.commit then ApplyCommitted(s2.(commit := Min(m.commit, matchSeq))) else Outcome(s2, []);
        Outcome(a.node, f.actions + persist + a.actions + [Send(from, AppendResp(s1.epoch, matchSeq, true))])
  }

  function HandleSnapshot(s: Node, from: Id, m: Msg): Outcome
    requires m.InstallSnapshot?
  {
    if m.epoch < s.epoch then Outcome(s, [Send(from, AppendResp(s.epoch, 0, false))])
    else
      var f := Follow(s, from, m.epoch);
      var s1 := f.node;
      if m.lastSeq <= s1.applied then
        Outcome(s1, f.actions + [Send(from, AppendResp(s1.epoch, LastSeq(s1), true))])
      else
        Outcome(s1.(log := [], baseSeq := m.lastSeq, baseEpoch := m.lastEpoch, commit := m.lastSeq, applied := m.lastSeq),
                f.actions + [ApplySnapshot(m.lastSeq, m.data), PersistMeta, PersistLog(m.lastSeq + 1),
                             Send(from, AppendResp(s1.epoch, m.lastSeq, true))])
  }

  /** Raise the first row of `id`. */
  function RaiseTo(ps: seq<Progress>, id: Id, at: nat): seq<Progress> {
    if ps == [] then []
    else if ps[0].id == id then [Progress(id, Max(ps[0].at, at))] + ps[1..]
    else [ps[0]] + RaiseTo(ps[1..], id, at)
  }

  /** Overwrite the first row of `id`. */
  function SetTo(ps: seq<Progress>, id: Id, at: nat): seq<Progress> {
    if ps == [] then []
    else if ps[0].id == id then [Progress(id, at)] + ps[1..]
    else [ps[0]] + SetTo(ps[1..], id, at)
  }

  /** Where a leader retries after a rejection: toward the hint, always below the old value, or one
      below its own snapshot point when only a snapshot can help. */
  function BackUp(base: nat, next: nat, hint: nat): nat {
    if next <= base + 1 then Max(base, 1)
    else Max(Min(hint + 1, next - 1), base + 1)
  }

  /** Apply `BackUp` to the first row of `id`. */
  function BackUpRow(ps: seq<Progress>, id: Id, base: nat, hint: nat): seq<Progress> {
    if ps == [] then []
    else if ps[0].id == id then [Progress(id, BackUp(base, ps[0].at, hint))] + ps[1..]
    else [ps[0]] + BackUpRow(ps[1..], id, base, hint)
  }

  predicate AllPositive(ps: seq<Progress>) {
    forall i :: 0 <= i < |ps| ==> ps[i].at > 0
  }

  lemma {:induction false} RowsPositive(ps: seq<Progress>, id: Id, at: nat, base: nat)
    requires AllPositive(ps)
    ensures at > 0 ==> AllPositive(SetTo(ps, id, at))
    ensures AllPositive(BackUpRow(ps, id, base, at))
  {
    if ps != [] && ps[0].id != id {
      RowsPositive(ps[1..], id, at, base);
    }
  }

  function HandleAppendResp(s: Node, from: Id, m: Msg): Outcome
    requires WellFormed(s) && m.AppendResp?
  {
    if m.epoch > s.epoch then BecomeFollower(s, m.epoch)
    else if m.epoch != s.epoch || !IsLeader(s) then Outcome(s, [])
    else if m.ok then
      RowsPositive(s.role.next, from, m.matchSeq + 1, 0);
      AdvanceCommit(s.(role := Leader(SetTo(s.role.next, from, m.matchSeq + 1), RaiseTo(s.role.matched, from, m.matchSeq))))
    else
      RowsPositive(s.role.next, from, m.matchSeq, s.baseSeq);
      var s' := s.(role := Leader(BackUpRow(s.role.next, from, s.baseSeq, m.matchSeq), s.role.matched));
      Outcome(s', ReplicateAll(s'))
  }

  function Handle(s: Node, from: Id, m: Msg): Outcome
    requires WellFormed(s)
  {
    match m
    case VoteReq(_, _, _) => HandleVoteReq(s, from, m)
    case VoteResp(_, _) => HandleVoteResp(s, from, m)
    case Append(_, _, _, _, _) => HandleAppend(s, from, m)
    case AppendResp(_, _, _) => HandleAppendResp(s, from, m)
    case InstallSnapshot(_, _, _, _) => HandleSnapshot(s, from, m)
  }
}
