# RandallFlare's decision core, in Dafny

RandallFlare keeps its decisions in a pure core: a micro-quorum (a small Raft) per
replicated database, and a handful of gossiped sets that every node must resolve
alike. This project models that core together with the two pieces of the shell
whose correctness depends on it (the database driver and the source chain), and
proves what the core's documentation promises, or where the code falls short of
it, exactly when it does not.

`dafny verify dfyconfig.toml` checks everything.

## The micro-quorum

`Quorum` holds one pure function per entry point of the replica: it returns the
new state and the ordered list of actions. `RaftNode` is the same replica as an
object updated in place; each of its methods is proved equal to the function.
`Driver` is the object that carries out the actions on a store and a database
file. `Cluster` puts replicas, stores and a network together: events are election
timeouts, heartbeats, proposals, deliveries in any order and any number of times,
compactions, and restarts from what is stored. A run is any finite sequence of
events from the empty cluster.

The safety proof has three layers. `Protocol` and `ProtocolSteps` are an abstract
protocol with whole logs and a history of votes, bids, reigns and acknowledgements;
there log matching, leader completeness and agreement on what is committed are
proved. `Mirror`, `Storage`, `Simulation` and the `Sim…` modules show that every
event of the cluster is matched by moves of the protocol, through compaction,
snapshots and restarts. `Safety` carries this over whole runs.

`EpochRules` says in a node's own fields what a message does to its epoch, vote, role
and rows, and when votes make a leader.

What holds of every run as written:

- at most one leader per epoch, with compaction, snapshots and restarts
  (`Elections.ElectionSafety`);
- a leader only appends to its log during its epoch (`LogShape.LeaderAppendOnly`);
- no row of a leader can reach zero, so no index can wrap
  (`Elections.RunsContinue`);
- nothing is stored after the first message of a turn
  (`Durability.TurnPersistsFirst`).

What holds of every run whose restarts find a clean store, whatever is
acknowledged: every log is the contiguous suffix above its snapshot point, every
Append in flight is contiguous, every disk holds its node's log
(`LogShape.RunShape`), everything is stored before a node speaks
(`Durability.StoredBeforeSpeaking`), and an epoch and a sequence number name one
entry (`EntryNames.NamesOneEntry`). Every run without compaction also keeps log
matching (`Safety.LogMatching`).

State-machine safety is false as written. Three runs on three nodes show it, and a
fourth takes a database off the history; each has a single event at fault and every
other event guarded:

- `FalseAck`: a follower acknowledges the end of its own log, which is not the
  leader's (crates/rf-core/src/quorum.rs:553, meant at line 54);
- `FalseOldAck`: so it does when it is already past a snapshot it is sent (line 596);
- `FalseSnapshot`: a late snapshot clears entries that were acknowledged (line 602);
- `FalseRestart`: installing a snapshot leaves older stored entries in place, the next
  restart loads them at wrong sequence numbers, and the database executes one command
  twice and another never (crates/rf/src/store.rs:223-262).

Each fault has a guard that can be evaluated before the event (`Guards`):

- the log acknowledged after an Append is a prefix of the leader's if and only if
  nothing of an older epoch sticks out beyond the received entries
  (`Acks.AckExactlyWhenTruthful`);
- the log acknowledged for an old snapshot is a prefix of the leader's if and only if
  the leader holds an entry of the same epoch where it ends
  (`Acks.OldAckExactlyWhenTruthful`, for a leader in office whose log reaches down that
  far; when it does not, or the leader is out of office, the guard asks that everything
  be applied or of the leader's epoch, which is sufficient);
- clearing the log leaves what section 7 of the Raft paper leaves if and only if the
  follower does not hold the snapshot's last entry with more after it
  (`SimSnapshot.ClearingKeepsExactly`);
- a restart finds the replica's log if and only if no stored entry lies at or below
  the snapshot point (`Durability.RestartExactlyWhenClean`).

For every run whose events satisfy the guards, one history of entries explains
every database of every node at every moment, restarts included
(`Safety.OneHistory`). State-machine safety, agreement of databases and leader
completeness follow. The guards are not necessary for a whole run to be safe: a
false acknowledgement may go unused.

Safety has no other fault. `Repaired` is the same replica with Appends and old
snapshots acknowledged as documented, a snapshot that retains a log extending it, and
a store that is rewritten on installation. Every run of it is safe, with no condition
at all (`Repaired.RepairedOneHistory`).

## The gossiped sets

- `HybridClock`: timestamps respect causality across any number of clocks.
- `Kv`: last-write-wins registers over `SortedMap`, an ordered map; `KvLaws` says what
  readers see of them, and `KvNode` adds the node's clock.
- `Claims`: who holds a task; `ClaimLaws`: what is accepted, and how long it lives.
- `Manifests` and `ManifestLaws`: which deployment of a worker is in force.
- `Sources`: which source configuration of a worker is in force.
- `Calendar`, `Bits` and `Cron`: how a cron expression is parsed and matched;
  `CronTexts`: texts written out and read back; `Schedules`: what a text says, and for
  which texts the two agree.

Envelopes are values that open to their content or fail to, with a digest. Where a
result needs digests to be free of collisions, the lemma says so as a precondition.
Convergence is stated for sets of writes, envelopes or manifests: every order and
repetition ends alike if and only if the set has no tie at a top rank (`Kv`,
`Claims`), or every top manifest is linked (`ManifestLaws`).

Arithmetic is unbounded except where the code's width shows: the clock's 32-bit
counter wraps, claim times saturate at 64 bits, a cron step wraps at 32 bits and
masks are narrowed to their words.

## Model

| member | source | states |
|---|---|---|
| `Elections.ElectionSafety` | crates/rf-core/src/quorum.rs:9-10 | over every run as written, an epoch has at most one leader, although an Append also fills an empty vote |
| `Elections.RunsContinue` | crates/rf-core/src/quorum.rs:369-375 | after every run every node's rows are positive, so every event can be carried out and no `next - 1` wraps |
| `Turns.TurnDiscipline` | crates/rf-core/src/quorum.rs:266-669 | every turn keeps a vote once given in an epoch, persists a changed epoch or vote, grants only the vote it records, and wins only with a majority |
| `Turns.FollowDiscipline` | crates/rf-core/src/quorum.rs:501-511 | following a leader keeps the epoch's vote and persists any change |
| `EpochRules.EpochAfter` | crates/rf-core/src/quorum.rs:443-669 | for every node, sender and message the epoch becomes the later of the two; a later one ends leadership and candidacy and is persisted; leadership is reported lost exactly when it is |
| `EpochRules.LaterAnswer` | crates/rf-core/src/quorum.rs:471-475 | an answer of a later epoch changes epoch, vote, role and leader and nothing else |
| `EpochRules.StaleRefused` | crates/rf-core/src/quorum.rs:492-502 | a stale message changes nothing, and a stale request is refused in the node's own epoch |
| `EpochRules.DeposedGivesWay` | crates/rf-core/src/quorum.rs:625-632 | an overtaken leader gives way as soon as one node that moved on answers it |
| `EpochRules.VoteExactly` | crates/rf-core/src/quorum.rs:445-470 | a vote is granted if and only if the candidate's log is recent enough and the epoch's vote is free or the candidate's, and nothing but epoch, vote, role and leader changes |
| `EpochRules.StandsExactly` | crates/rf-core/src/quorum.rs:266-291 | a timeout moves to the next epoch, votes for itself, asks exactly the others, and wins at once exactly when alone it is a majority |
| `EpochRules.LeadsExactly` | crates/rf-core/src/quorum.rs:341-359 | after any answers, in any order and repeated at will, a candidate leads if and only if more than half the group voted for it |
| `EpochRules.HintExactly` | crates/rf-core/src/quorum.rs:226-232 | a leader points clients at itself, a follower at the leader it heard from, a voter at its candidate |
| `EpochRules.RowsExactly` | crates/rf-core/src/quorum.rs:633-667 | an answer moves the sender's rows alone: an acknowledgement to just after it, never lowering what is known stored, a rejection lower |
| `EpochRules.CatchesUpExactly` | crates/rf-core/src/quorum.rs:515-567 | an accepted Append moves the commit mark to the leader's, at most to the end of the log, applies exactly what lies between and answers with the end; a rejected one moves nothing |
| `EpochRules.CommitsExactly` | crates/rf-core/src/quorum.rs:398-441 | a leader's commit mark moves to the highest entry of its own epoch that more than half the group has, stays where none lies above it, and exactly what lies up to it is applied |
| `Groups.SortPermutes` | crates/rf-core/src/quorum.rs:143-147 | ordering the group neither loses nor repeats a member |
| `Protocol.LogsMatch` | crates/rf-core/src/quorum.rs:515-549 | two logs of the protocol that agree on an epoch at a position agree up to it |
| `Protocol.OneLeaderPerEpoch` | crates/rf-core/src/quorum.rs:9-10 | a majority of an epoch's votes can only be for that epoch's leader |
| `Protocol.LeaderCompleteness` | crates/rf-core/src/quorum.rs:11-12 | an entry committed in an epoch is in the starting log of every later reign |
| `ProtocolSteps.CommittedAgree` | crates/rf-core/src/quorum.rs:13 | two committed prefixes agree on the shorter one |
| `ProtocolSteps.CommittedInReign` | crates/rf-core/src/quorum.rs:11-12 | what is committed as of an epoch is a prefix of that epoch's leader log |
| `ProtocolSteps.WinKeeps` | crates/rf-core/src/quorum.rs:341-359 | winning with a majority of votes keeps the protocol's invariant |
| `ProtocolSteps.AcceptKeeps` | crates/rf-core/src/quorum.rs:515-567 | adopting a leader's prefix and acknowledging what matches keeps the protocol's invariant |
| `Mirror.ReadLast` | crates/rf-core/src/quorum.rs:238-243 | reading the last entry of a compacted replica gives what the whole log gives |
| `Mirror.ReadAt` | crates/rf-core/src/quorum.rs:245-259 | reading an entry or an epoch of a compacted replica gives what the whole log gives |
| `Mirror.SnapshotPoint` | crates/rf-core/src/quorum.rs:192-201 | the declared snapshot point is the last applied entry of the whole log |
| `Mirror.CompactKeepsSuffix` | crates/rf-core/src/quorum.rs:206-220 | compaction keeps the suffix of the whole log and drops no unapplied entry |
| `Mirror.CompactExactly` | crates/rf-core/src/quorum.rs:206-220 | compaction moves the snapshot point to the kept tail below the applied mark if and only if more than that is applied above it, and keeps every entry above |
| `Mirror.MergeIsAdopt` | crates/rf-core/src/quorum.rs:534-549 | folding received entries in leaves the follower's log if it contains the leader's prefix and the leader's prefix otherwise, truncating only at the first conflict |
| `SimLeader.ScanCommitMeaning` | crates/rf-core/src/quorum.rs:398-419 | the commit scan finds an entry of the current epoch that a majority holds, and none above it was eligible |
| `SimLeader.CommitPointOK` | crates/rf-core/src/quorum.rs:398-423 | with truthful rows, what the scan commits is committed in the protocol |
| `SimAppend.ReceivedIsAdopted` | crates/rf-core/src/quorum.rs:515-549 | an Append that passes the check leaves the follower with the adopted log |
| `SimAppend.AppendStep` | crates/rf-core/src/quorum.rs:485-567 | every Append turn is matched by protocol moves |
| `SimSnapshot.ClearingKeepsExactly` | crates/rf-core/src/quorum.rs:602-606 | clearing the log on a snapshot leaves the adopted log if and only if the guard holds |
| `SimSnapshot.MatchedBySender` | crates/rf-core/src/quorum.rs:590-600 | the follower's whole log is a prefix of that of a leader in office if and only if the leader holds an entry of the same epoch where it ends |
| `SimSnapshot.SnapshotStep` | crates/rf-core/src/quorum.rs:568-624 | every guarded snapshot turn is matched by protocol moves |
| `SimRest.ShrinkHostOK` | crates/rf/src/d1.rs:742-779 | compacting replica and store together keeps them equal and the simulation |
| `SimRest.RestartHostOK` | crates/rf-core/src/quorum.rs:165-188 | a restart from a clean store keeps the simulation |
| `Safety.StepSimulated` | crates/rf-core/src/quorum.rs:266-669 | every covered event of the cluster is matched by moves of the protocol |
| `Safety.OneHistory` | crates/rf/src/d1.rs:781-845 | over every guarded run one sequence of entries explains, at every moment, every database as the replay of its applied prefix with failing commands as no-ops, every committed log entry, and everything ever applied |
| `Safety.StateMachineSafety` | crates/rf-core/src/quorum.rs:13 | over every guarded run no two nodes apply different entries at one sequence number |
| `Safety.DatabasesAgree` | crates/rf/src/d1.rs:781-801 | nodes that applied equally much hold equal databases, at whatever moments they are compared |
| `Safety.LogMatching` | crates/rf-core/src/quorum.rs:515-549 | over guarded runs, and over all runs without compaction, entries of one epoch at one sequence number have equal pasts |
| `EntryNames.NamesOneEntry` | crates/rf-core/src/quorum.rs:302-320 | over every run with clean restarts, whatever is acknowledged, entries of one epoch at one sequence number are equal |
| `Safety.LaterLeadersComplete` | crates/rf-core/src/quorum.rs:11-12 | over guarded runs, what was applied anywhere by some moment is for ever after held by every leader of an epoch no node was ahead of at that moment |
| `LogShape.LeaderAppendOnly` | crates/rf-core/src/quorum.rs:302-320 | over every run as written a leader's log only grows during its epoch |
| `LogShape.RunShape` | crates/rf-core/src/quorum.rs:118-121 | over every run with clean restarts each log and each Append in flight is numbered without a gap and each disk holds its node's log |
| `LogShape.ReadsByNumber` | crates/rf-core/src/quorum.rs:238-259 | in such a state reading at a sequence number finds the entry that carries it, exactly above the snapshot point and up to the end |
| `LogShape.MergeShape` | crates/rf-core/src/quorum.rs:534-549 | merging contiguous entries leaves no gap, and persists from the first entry it changed |
| `Acks.AckExactlyWhenTruthful` | crates/rf-core/src/quorum.rs:553-566 | over guarded runs, and over all runs without compaction, an accepted Append of a leader in office is acknowledged with a prefix of its log if and only if the guard holds |
| `Acks.UncompactedAckExactlyWhenTruthful` | crates/rf-core/src/quorum.rs:553-566 | without compaction the same, of the logs the nodes hold |
| `Acks.OldAckExactlyWhenTruthful` | crates/rf-core/src/quorum.rs:590-600 | over guarded runs an old snapshot of a leader in office is acknowledged with a prefix of its log if and only if the guard holds, where the leader's log reaches down that far |
| `FalseAck.StateMachineSafetyFails` | crates/rf-core/src/quorum.rs:553-566 | a run of eighteen events, all guarded but the eighth, in which two nodes apply different commands at one sequence number |
| `FalseSnapshot.SnapshotBreaksSafety` | crates/rf-core/src/quorum.rs:602-606 | a run of eighteen events, all guarded but one snapshot delivery, in which two nodes apply different commands at one sequence number |
| `FalseOldAck.OldAckBreaksSafety` | crates/rf-core/src/quorum.rs:590-600 | a run of thirty-three events, all guarded but the delivery of one old snapshot, in which two nodes apply different commands at one sequence number |
| `FalseRestart.RestartBreaksDatabase` | crates/rf/src/store.rs:223-262 | a run of eighteen events, all guarded but one restart, after which two nodes have applied equally much and one database executed a command twice and another never |
| `Repaired.RepairedOneHistory` | crates/rf-core/src/quorum.rs:53-55 | with the acknowledgement as documented, suffix retention on snapshots and a rewritten store, one history explains every database at every moment of every run, with no condition on the run |
| `Repaired.RepairedStateMachineSafety` | crates/rf-core/src/quorum.rs:13 | no two nodes of the repaired replica ever apply different entries at one sequence number |
| `Repaired.RepairedRunsContinue` | crates/rf-core/src/quorum.rs:369-375 | after every run of the repaired replica whatever can happen next extends the run, so no `next - 1` wraps |
| `Repaired.RetainedIsAdopted` | crates/rf-core/src/quorum.rs:602-606 | what a snapshot should retain is the part above it of the log the protocol adopts |
| `LogRepair.RepairConverges` | crates/rf-core/src/quorum.rs:645-667 | repeated rejection and back-up ends with the follower holding the leader's log, and with a snapshot exactly when the logs disagree at the leader's snapshot point |
| `LogRepair.RejectionsBounded` | crates/rf-core/src/quorum.rs:645-667 | a follower rejects at most once per row above the leader's snapshot point |
| `LogRepair.RejectHint` | crates/rf-core/src/quorum.rs:520-533 | a rejection points at the follower's end, at most just before the failed check, and never below its snapshot point |
| `LogRepair.BehindOnce` | crates/rf-core/src/quorum.rs:645-667 | a follower that is merely behind refuses exactly once |
| `LogRepair.CheckMeansAgreement` | crates/rf-core/src/quorum.rs:512-519 | the consistency check passes exactly where the two logs agree |
| `Durability.TurnPersistsFirst` | crates/rf-core/src/quorum.rs:70-79 | in every turn of every node nothing is persisted after the first message |
| `Durability.StoredBeforeSpeaking` | crates/rf/src/d1.rs:565-590 | over every run with clean restarts, whenever a node speaks its epoch, vote, snapshot point and log are already stored |
| `Durability.RestartExactlyWhenClean` | crates/rf/src/store.rs:251-262 | a restart loads the replica's log if and only if no stored entry lies at or below the snapshot point |
| `Durability.InstallCleanExactlyWhenEmpty` | crates/rf/src/store.rs:223-249 | after installing a snapshot the store is fit for a restart if and only if nothing was stored before |
| `RaftNode.Raft.constructor` | crates/rf-core/src/quorum.rs:143-161 | a new replica is the empty follower of the ordered group |
| `RaftNode.Raft.Restore` | crates/rf-core/src/quorum.rs:165-188 | a restored replica resumes at the applied mark or the snapshot point, whichever is later |
| `RaftNode.Raft.Compact` | crates/rf-core/src/quorum.rs:206-220 | the object is compacted as the function says and reports whether it changed |
| `RaftNode.Raft.TickElection` | crates/rf-core/src/quorum.rs:266-291 | state and actions are those of the function |
| `RaftNode.Raft.Heartbeat` | crates/rf-core/src/quorum.rs:294-299 | the actions are those of the function and the state is untouched |
| `RaftNode.Raft.Propose` | crates/rf-core/src/quorum.rs:302-320 | a leader answers the next sequence number and the function's outcome, any other node a hint and no change |
| `RaftNode.Raft.BecomeFollower` | crates/rf-core/src/quorum.rs:322-339 | state and actions are those of the function |
| `RaftNode.Raft.TryWin` | crates/rf-core/src/quorum.rs:341-359 | state and actions are those of the function |
| `RaftNode.Raft.ReplicateAll` | crates/rf-core/src/quorum.rs:361-396 | the loop over the rows sends what the function says |
| `RaftNode.Raft.AdvanceCommit` | crates/rf-core/src/quorum.rs:398-430 | the scanning loop commits and applies what the function says |
| `RaftNode.Raft.ApplyCommitted` | crates/rf-core/src/quorum.rs:432-441 | the loop applies exactly the entries between the applied and the commit mark, in order |
| `RaftNode.Raft.Handle` | crates/rf-core/src/quorum.rs:443-669 | state and actions for every message are those of the functions proved about |
| `RaftNode.Raft.MergeEntries` | crates/rf-core/src/quorum.rs:534-549 | truncating and pushing in place is the fold over the received entries |
| `RaftNode.Raft.HandleAppend` | crates/rf-core/src/quorum.rs:485-567 | state and actions are those of the function |
| `RaftNode.Raft.HandleSnapshot` | crates/rf-core/src/quorum.rs:568-624 | state and actions are those of the function |
| `RaftNode.Raft.HandleAppendResp` | crates/rf-core/src/quorum.rs:625-668 | state and actions are those of the function |
| `Driver.D1Driver.Open` | crates/rf/src/d1.rs:324-367 | a driver opens as the cluster model restarts a host |
| `Driver.D1Driver.Execute` | crates/rf/src/d1.rs:565-684 | the loop stores, sends and applies what the cluster model does, then compacts |
| `Driver.D1Driver.Apply` | crates/rf/src/d1.rs:781-801 | a command and its marker take effect together, a failing one not at all |
| `Driver.D1Driver.InstallSnapshot` | crates/rf/src/d1.rs:711-738 | the file is replaced and its marker becomes the declared position |
| `Driver.D1Driver.MaybeCompact` | crates/rf/src/d1.rs:742-779 | a long log is compacted in the replica and in the store alike |
| `Driver.D1Driver.Deliver` | crates/rf/src/d1.rs:383-389 | a delivered message is carried out as one turn |
| `Driver.DriverTurnsAreSteps` | crates/rf/src/d1.rs:565-684 | what a driver makes of a turn is what the cluster model makes of the event and a possible compaction |
| `HybridClock.Clock.Now` | crates/rf-core/src/hlc.rs:33-43 | the stamp exceeds the last one if and only if the wall clock moved on or the counter does not overflow |
| `HybridClock.Clock.Observe` | crates/rf-core/src/hlc.rs:47-60 | the clock ends at or past both stamps under the same condition |
| `HybridClock.TicksExactly` | crates/rf-core/src/hlc.rs:33-43 | the wall part is the latest reading; the counter starts at zero when it moves on and grows by one when it does not |
| `HybridClock.ObservesExactly` | crates/rf-core/src/hlc.rs:47-60 | the later wall part of two stamps is kept, and its counter grows by one unless the wall clock is ahead |
| `HybridClock.Causality` | crates/rf-core/src/hlc.rs:1-8 | across any number of clocks, whatever happened before a stamped event has a smaller stamp |
| `HybridClock.ShortRunsFit` | crates/rf-core/src/hlc.rs:33-60 | a run shorter than the counter's range overflows nothing |
| `HybridClock.WallWasRead` | crates/rf-core/src/hlc.rs:33-60 | no stamp's wall part exceeds what some node read |
| `HybridClock.OverflowGoesBack` | crates/rf-core/src/hlc.rs:40 | an exhausted counter makes the next stamp smaller |
| `Kv.Namespace.Put` | crates/rf-core/src/kv.rs:82-98 | a local write replaces the row whatever it held, and the rows stay sorted |
| `Kv.Namespace.Merge` | crates/rf-core/src/kv.rs:101-109 | a remote write replaces the row exactly when it outranks it |
| `Kv.Namespace.ApplyDump` | crates/rf-core/src/kv.rs:156-167 | the loop merges every item and counts those that won |
| `Kv.Namespace.Gc` | crates/rf-core/src/kv.rs:171-185 | exactly the long-dead rows are dropped and counted |
| `Kv.Namespace.List` | crates/rf-core/src/kv.rs:120-132 | starting at the prefix and stopping at the first key without it finds the first matching keys of all |
| `Kv.MatchesExactly` | crates/rf-core/src/kv.rs:119-132 | a key is listed if and only if it has the prefix and can be read |
| `KvLaws.ReadExactly` | crates/rf-core/src/kv.rs:51-59 | a key is read if and only if its row has a value and its expiry is absent or later than now |
| `KvLaws.WrittenIsRead` | crates/rf-core/src/kv.rs:82-113 | what is written is read until it expires and from then on never, a tombstone never, and no other key is touched |
| `KvLaws.ListExactly` | crates/rf-core/src/kv.rs:119-132 | a listing holds unexpired keys with the prefix in ascending order, and misses one only at the limit and beyond every key listed |
| `SortedMap.LessExactly` | crates/rf-core/src/kv.rs:67-72 | rows are ordered by the first character two keys differ in, a prefix before the rest |
| `KvLaws.GcDropsExactly` | crates/rf-core/src/kv.rs:171-185 | a row is dropped if and only if it is a tombstone or expired, and has been for the horizon |
| `KvLaws.ReportsChanges` | crates/rf-core/src/kv.rs:156-167 | the number a dump reports is the number of items that changed something |
| `KvLaws.HeldIsGreatest` | crates/rf-core/src/kv.rs:44-49 | what is held is one of the writes, and every other has an earlier timestamp, a lower writer, or no larger a digest |
| `KvLaws.HigherWriterWins` | crates/rf-core/src/kv.rs:44-49 | of two writes at one moment the higher writer's is held, whichever comes first |
| `KvLaws.ContentsTold` | crates/rf-core/src/kv.rs:29-42 | among writes that all expire, or all do not, the digest is taken of different bytes for different contents |
| `Kv.ConvergesExactly` | crates/rf-core/src/kv.rs:1-10 | for every set of writes, all orders and repetitions give the same rows if and only if each key's top rank belongs to one write |
| `Kv.Converges` | crates/rf-core/src/kv.rs:1-10 | two such orders give the same rows when each key's top rank belongs to one write |
| `Kv.LatestWriteWins` | crates/rf-core/src/kv.rs:1-10 | whatever the order, the write with the latest timestamp is what a replica ends with |
| `Kv.ReplicasConverge` | crates/rf-core/src/kv.rs:80-109 | so do mixes of local and remote writes when every local write is later than what the replica holds |
| `KvNode.RunClocked` | crates/rf/src/node.rs:446-474 | over every run of a node that shows its clock each merged entry and stamps each write with it, every local write is later than what is held, as long as no counter overflows |
| `KvNode.NodesConverge` | crates/rf-core/src/kv.rs:80-109 | nodes with clocks of their own that saw the same writes hold the same rows |
| `KvNode.Node.Put` | crates/rf/src/node.rs:446-474 | a local write is stamped by the clock and stored |
| `KvNode.Node.MergeRemote` | crates/rf/src/node.rs:561-585 | the loop shows the clock every item before merging it, and counts those that won |
| `Kv.DumpsReconcile` | crates/rf-core/src/kv.rs:149-167 | after merging each other's dumps two replicas hold what all writes together give |
| `Kv.CommutesExactly` | crates/rf-core/src/kv.rs:46-49 | two writes to a key commute if and only if they are equal or differently ranked |
| `Kv.TieNotBroken` | crates/rf-core/src/kv.rs:29-42 | under every digest two different writes can tie, because value and expiry run together |
| `Kv.PutIsMergeExactly` | crates/rf-core/src/kv.rs:80-98 | a local write is a merge if and only if it outranks what is there or is there already |
| `Kv.DumpQuietExactly` | crates/rf-core/src/kv.rs:156-167 | a dump changes nothing if and only if it reports no merge |
| `Kv.GcInvisible` | crates/rf-core/src/kv.rs:171-185 | collection changes no later read |
| `Kv.GcListInvisible` | crates/rf-core/src/kv.rs:171-185 | collection changes no later listing |
| `Kv.ResurrectsExactly` | crates/rf-core/src/kv.rs:3-6 | an older write brings a deleted key back if and only if the tombstone was past the horizon |
| `Claims.ClaimSet.Ingest` | crates/rf-core/src/claim.rs:135-187 | the records and the verdict after a claim, for every error and every branch |
| `ClaimLaws.FaultExactly` | crates/rf-core/src/claim.rs:135-144 | each fault of an envelope is found exactly when it has it and none looked for before |
| `ClaimLaws.HeldIsGenuine` | crates/rf-core/src/claim.rs:135-187 | whatever was heard, every record held was signed by its holder, has a time to live and was renewed no earlier than acquired |
| `ClaimLaws.OnlyTheHolderSpeaks` | crates/rf-core/src/claim.rs:137-139 | an envelope touches at most the record of its signer on its task |
| `ClaimLaws.ForgedChangesNothing` | crates/rf-core/src/claim.rs:137-139 | an envelope not signed by the holder it names is refused as such and changes nothing |
| `ClaimLaws.IngestExactly` | crates/rf-core/src/claim.rs:145-187 | a genuine claim is stale, refused or taken up exactly as its digest and timestamps stand to the record held |
| `ClaimLaws.LiveExactly` | crates/rf-core/src/claim.rs:43-49 | a claim is live if and only if it is not released and its renewal, time to live and fifteen seconds are not over, saturating at 64 bits |
| `Claims.ClaimSet.Winner` | crates/rf-core/src/claim.rs:190-201 | the live claim acquired earliest, with the lowest digest on a tie, or nobody exactly when no claim is live |
| `ClaimLaws.WinnerExactly` | crates/rf-core/src/claim.rs:190-201 | a winner is a record live now that was acquired before every other such, or with no larger a digest |
| `ClaimLaws.LateClaimLoses` | crates/rf-core/src/claim.rs:190-201 | a claim acquired later than the winner's takes nothing from it |
| `ClaimLaws.EarlierClaimWins` | crates/rf-core/src/claim.rs:190-201 | a live claim acquired before the winner's takes the task |
| `ClaimLaws.ReleaseEnds` | crates/rf-core/src/claim.rs:47-49 | once its release is taken up a holder holds the task at no time |
| `Claims.ClaimSet.Holds` | crates/rf-core/src/claim.rs:204-208 | a node told it holds a task is a winner, and with distinct digests the winner is told so |
| `Claims.ClaimSet.OpenForClaim` | crates/rf-core/src/claim.rs:211-213 | a task is open exactly when no claim on it is live |
| `Claims.ClaimSet.Gc` | crates/rf-core/src/claim.rs:221-235 | exactly the released and long-dead claims are dropped and counted |
| `ClaimLaws.GcDropsExactly` | crates/rf-core/src/claim.rs:221-235 | a record is dropped if and only if it is released or the horizon has passed since its deadline |
| `Claims.HoldsNewest` | crates/rf-core/src/claim.rs:145-187 | whatever the order, a node ends with the newest claim of every holder |
| `Claims.ConvergesExactly` | crates/rf-core/src/claim.rs:1-15 | for every set of envelopes told apart by their digests, all orders and repetitions lead to the same claims if and only if each holder's newest claim on each task is one envelope |
| `Claims.Converges` | crates/rf-core/src/claim.rs:1-15 | two nodes that heard such a set know the same claims |
| `Claims.SameWinner` | crates/rf-core/src/claim.rs:190-201 | and pick the same winner of every task |
| `Claims.CommutesExactly` | crates/rf-core/src/claim.rs:152-163 | two claims of a holder commute if and only if they are the same or their timestamps differ |
| `Claims.WinnerUnique` | crates/rf-core/src/claim.rs:190-201 | with distinct digests there is at most one winner |
| `Claims.WinnerStays` | crates/rf-core/src/claim.rs:47-49 | without news a winner stays the winner for as long as it is live |
| `Claims.GcInvisible` | crates/rf-core/src/claim.rs:221-235 | collection changes no later winner, under saturating times |
| `Claims.ForgottenExactly` | crates/rf-core/src/claim.rs:226 | after collection an older claim is taken up again if and only if the newer one was released or long dead |
| `Claims.RenewalKeepsExactly` | crates/rf-core/src/claim.rs:194-200 | a renewing winner stays the winner if and only if no rival acquired at the same moment has a lower digest than the renewed claim |
| `Manifests.ManifestSet.Ingest` | crates/rf-core/src/manifest.rs:233-265 | the record and the verdict after a manifest, for every error and every branch |
| `ManifestLaws.FaultExactly` | crates/rf-core/src/manifest.rs:150-159 | each fault of a manifest is found exactly when it has it and none looked for before |
| `ManifestLaws.HeldIsSound` | crates/rf-core/src/manifest.rs:233-265 | whatever was heard, every record held links a predecessor exactly when it is no first version, and is filed under its own name |
| `ManifestLaws.IngestExactly` | crates/rf-core/src/manifest.rs:240-265 | a sound manifest is stale, refused or taken up exactly as its version, digest and link stand to the record held |
| `Manifests.ManifestSet.Routes` | crates/rf-core/src/manifest.rs:284-302 | every contended host goes to the live worker with the least digest and no other host is routed |
| `ManifestLaws.RoutingExactly` | crates/rf-core/src/manifest.rs:284-302 | a host is routed if and only if a live worker lists it, and goes to the one with the least digest |
| `Manifests.RoutingUnique` | crates/rf-core/src/manifest.rs:280-284 | the routes are determined by the records, whatever order they are walked in |
| `ManifestLaws.ConvergesExactly` | crates/rf-core/src/manifest.rs:9-12 | every order of a set of envelopes ends with a worker's top one if and only if the top one links every envelope of the version below it |
| `ManifestLaws.WorkersConvergeExactly` | crates/rf-core/src/manifest.rs:9-12 | for every set of envelopes told apart by their digests, all orders and repetitions lead to the same workers if and only if every worker's top envelope is so linked |
| `ManifestLaws.RoutesConverge` | crates/rf-core/src/manifest.rs:280-302 | then nodes that heard the same envelopes route every host alike |
| `ManifestLaws.NoneRefusedExactly` | crates/rf-core/src/manifest.rs:246-255 | no order refuses a valid envelope if and only if every direct successor links its predecessor |
| `ManifestLaws.ForksOnlyAtTop` | crates/rf-core/src/manifest.rs:14-21 | where all links hold a version with a successor is not forked |
| `ManifestLaws.ForkBelowTopDiverges` | crates/rf-core/src/manifest.rs:246-255 | two first versions and a second that links one of them end differently in two orders |
| `ManifestLaws.VerifyChain` | crates/rf-core/src/manifest.rs:333-358 | a log is accepted, with its manifests, exactly when it is a chain, and otherwise refused for a faulty element |
| `ManifestLaws.HeadPinsHistory` | crates/rf-core/src/manifest.rs:14-21 | two logs from version one that end in the same digest are the same log |
| `ManifestLaws.ChainAccepted` | crates/rf-core/src/manifest.rs:233-265 | a chain of valid manifests from version one is accepted element by element |
| `Sources.LeastFixedPoint` | crates/rf/src/build.rs:341-364 | the linked records are the least set closed under linking |
| `Sources.ReachesExactly` | crates/rf/src/build.rs:341-364 | a record counts if and only if it ends a chain of stored records of its worker from a first version on, each naming the digest before it |
| `Sources.Resolve` | crates/rf/src/build.rs:341-364 | one pass in version order accepts exactly the records linked back to a first version |
| `Sources.SourceRecords` | crates/rf/src/build.rs:315-373 | the linked records in worker, version and digest order, whatever order the store lists them in |
| `Sources.SourceHead` | crates/rf/src/build.rs:308-313 | the linked record of the worker that none outranks, or none if there is none |
| `Sources.HeadExactly` | crates/rf/src/build.rs:308-313 | the head is a record that counts, and every other such of its worker has a lower version, or the same and no larger a digest |
| `Sources.LiveSources` | crates/rf/src/build.rs:388-403 | exactly the heads that are not tombstones, one per worker, in order of the workers |
| `Sources.HeadUnique` | crates/rf/src/build.rs:308-313 | a worker has at most one head |
| `Sources.HeadNeverLowers` | crates/rf/src/build.rs:297-306 | more records never lower a head |
| `Sources.PrepareAdvances` | crates/rf/src/build.rs:239-264 | preparing and storing a record advances the head |
| `Sources.PreparedIsHead` | crates/rf/src/build.rs:239-295 | the prepared record is the new head when nothing stored was waiting for it |
| `Sources.PreparedExactly` | crates/rf/src/build.rs:239-286 | a prepared record is one version past the head and names its digest, or is a first version without a predecessor |
| `Sources.PreparedDecides` | crates/rf/src/build.rs:239-286 | storing a prepared configuration makes the worker live, a prepared deletion ends it, and a deletion can be prepared if and only if there is a head |
| `Calendar.CivilSteps` | crates/rf-core/src/cron.rs:79-92 | for every day number the next one is the calendar's next day, weekday included |
| `Calendar.CivilAnchor` | crates/rf-core/src/cron.rs:79-80 | day zero is Thursday, 1 January 1970 |
| `Calendar.CivilIsGregorian` | crates/rf-core/src/cron.rs:79-92 | any number of calendar steps from any day reaches the day that many later |
| `Calendar.CivilValid` | crates/rf-core/src/cron.rs:79-92 | every date produced exists in the calendar |
| `Calendar.FindsYear` | crates/rf-core/src/cron.rs:83-84 | the division formula finds the year of a 400-year era |
| `Calendar.DateOccurs` | crates/rf-core/src/cron.rs:79-92 | every day of every month, 29 February included, falls on every weekday some day after 1970 |
| `Cron.ParseField` | crates/rf-core/src/cron.rs:31-76 | the parsing loops yield the mask of the stepped ranges, or the first error |
| `CronTexts.NumberRoundTrip` | crates/rf-core/src/cron.rs:37-61 | every number below 2^32 is read back from its decimal digits, with or without a plus sign, and no larger one is accepted |
| `CronTexts.NotANumber` | crates/rf-core/src/cron.rs:37-61 | no text is a number that is empty, a lone sign, or has another character in it |
| `CronTexts.PartRoundTrip` | crates/rf-core/src/cron.rs:35-65 | every part that can be written is read as it is meant, or refused for what is wrong with it |
| `CronTexts.FieldRoundTrip` | crates/rf-core/src/cron.rs:31-65 | every field that can be written is read back part by part |
| `CronTexts.SplitJoin` | crates/rf-core/src/cron.rs:34 | splitting at a separator undoes joining with it |
| `Cron.SetRange` | crates/rf-core/src/cron.rs:66-70 | the stepping loop ends and sets the bits the wrapping counter visits |
| `Cron.RangeExactly` | crates/rf-core/src/cron.rs:66-70 | a stepped range is read right if and only if its first step does not wrap 32 bits |
| `Cron.NotEmpty` | crates/rf-core/src/cron.rs:72-74 | the empty-field error cannot occur, whether or not a step wraps |
| `Cron.AcceptedExactly` | crates/rf-core/src/cron.rs:31-76 | a field is accepted if and only if each of its parts is |
| `Cron.NarrowingLosesNothing` | crates/rf-core/src/cron.rs:110-118 | narrowing a mask to its word loses no bit |
| `Cron.Parse` | crates/rf-core/src/cron.rs:95-119 | five fields yield their masks, or the first error |
| `CronTexts.ParsesExactly` | crates/rf-core/src/cron.rs:95-119 | an expression is accepted if and only if it has five fields and every part of each reads within its bounds |
| `Schedules.RewritingExactly` | crates/rf-core/src/cron.rs:107-108 | a day-of-week part that is fine as written, seven being Sunday, allows the same weekdays once its sevens are zeros if and only if its start, end and step pass a stated test |
| `Schedules.FieldRewriting` | crates/rf-core/src/cron.rs:107-109 | a field of such parts means the same weekdays parsed as written |
| `Schedules.SevensOnly` | crates/rf-core/src/cron.rs:107-109 | a part without a seven is accepted by the parser if and only if it is fine as written |
| `Schedules.MatchesFires` | crates/rf-core/src/cron.rs:123-147 | masks, narrowing and bit tests pick the times of the matching rule on the sets the author wrote |
| `Schedules.FiresExactly` | crates/rf-core/src/cron.rs:123-147 | an expression fires at exactly the times its text describes, at all times, if and only if its starred day fields leave out no day it can meet |
| `Schedules.CoverExactly` | crates/rf-core/src/cron.rs:33 | they leave out none if and only if their steps are one, apart from a day of week that never gets a day |
| `Schedules.MatchesRefinesSets` | crates/rf-core/src/cron.rs:1-4 | with plain day fields and day-of-week parts that survive the rewriting an expression fires at exactly the times its text describes |
| `CronTexts.DailyFires` | crates/rf-core/src/cron.rs:123-147 | an hour and a minute with three stars fire every day throughout that minute and at no other time |
| `Schedules.TimeOfDay` | crates/rf-core/src/cron.rs:123-128 | days, hours, minutes and seconds are read back from the seconds they make |
| `Schedules.SteppedStarRefutes` | crates/rf-core/src/cron.rs:33 | every second day at midnight also fires on a day it leaves out |
| `Schedules.WeekToSevenRefutes` | crates/rf-core/src/cron.rs:107-108 | Sunday to Sunday is parsed as Sunday alone, and Monday to Sunday is refused |
| `Schedules.SeventyRefutes` | crates/rf-core/src/cron.rs:107-108 | seventy is parsed as Sunday |

## Left out

- Crashes in the middle of a list of actions: an event is carried out whole or not at all; what is stored before each message is stated by `Durability.StoredBeforeSpeaking`.
- Liveness of elections and membership change.
- Overflow of 64-bit epochs, sequence numbers and versions: they are unbounded here.
- Answers to waiting clients (`pending` and `my_entries` of the driver), audit records, and failures of the store itself.
- SQLite: a deterministic step that yields a new database or fails; checkpoints and file swaps are one step.
- `rendezvous_group`: a group is any sequence without repetitions.
- Signatures, hashing and encodings: an envelope opens or does not, and digests are numbers.
- The checks on a manifest's name, paths, hostnames and cron texts: two flags say whether they passed.
- Splitting a cron text at white space: an expression is given as its fields.
- Safety.OneHistory: one direction only, since a run can break a guard and stay safe.
- Safety.LogMatching: not stated for runs that are neither guarded nor free of compaction, where it fails: once a false acknowledgement has let two nodes commit different entries and compact them, a leader can pass on an entry under the wrong predecessor. What holds there is `EntryNames.NamesOneEntry` and `LogShape.RunShape`.
- Acks.OldAckExactlyWhenTruthful: not stated where the leader has compacted past the end of the follower's log, since no node then holds what would have to be compared.
- Schedules.RewritingExactly: says nothing of parts that are wrong as written; those the parser accepts all the same contain a seven (`Schedules.SevensOnly`).
- The other namespaces of a node: they share its clock, which `KvNode` models as ticks and observations from elsewhere.
- The HTTP surface, certificates, mail, analytics, blobs, builds and every other part of the shell.
