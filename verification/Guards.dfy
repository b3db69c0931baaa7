/**
When the code as written keeps its promises.

An Append is acknowledged with the end of the follower's log, which is meant
to be the highest sequence number matching the leader.  It is exactly when
nothing of an older epoch sticks out beyond the entries just received.

A snapshot the follower is already past is acknowledged with the end of the
follower's log too.  That end matches the leader when everything in the log is
applied, when the last entry is of the leader's own epoch, or when the leader
holds an entry of the same epoch at the same place.

A snapshot that is installed replaces the whole log.  That forgets nothing
exactly when the follower does not already hold the snapshot's last entry with
more after it.

A restart loads every stored entry.  It loads the node's log exactly when no
stored entry lies at or below the snapshot point.

Each guard can be evaluated before the turn it guards.
*/
module Guards {
  import opened Options
  import opened Quorum
  import opened Cluster
  import opened Storage

  /** The follower's node once the received entries are merged. */
  function Received(s: Node, msg: Msg): Node
    requires msg.Append?
  {
    s.(log := Merge(s.baseSeq, Merged(s.log, None), msg.entries).log)
  }

  predicate TruthfulAck(s: Node, msg: Msg)
    requires msg.Append?
  {
    msg.epoch >= s.epoch && PrevOK(s, msg) ==>
      LastSeq(Received(s, msg)) <= msg.prevSeq + |msg.entries| || LastEpochOf(Received(s, msg)) == msg.epoch
  }

  /** The node a packet came from, as it is when the packet arrives. */
  function Sender(c: Cluster, p: Packet): Option<Node> {
    if p.src in c.hosts then Some(c.hosts[p.src].node) else None
  }

  predicate InOffice(l: Node, e: nat) {
    IsLeader(l) && l.epoch == e
  }

  /** The end of the follower's log, given as an answer to a snapshot it is already past, matches the sender. */
  predicate TruthfulOldAck(s: Node, sender: Option<Node>, msg: Msg)
    requires msg.InstallSnapshot?
  {
    || LastSeq(s) <= s.applied
    || LastEpochOf(s) == msg.epoch
    || (&& sender.Some? && InOffice(sender.value, msg.epoch)
        && EpochAt(sender.value, LastSeq(s)) == Some(LastEpochOf(s)))
  }

  predicate HarmlessSnapshot(s: Node, sender: Option<Node>, msg: Msg)
    requires msg.InstallSnapshot?
  {
    msg.epoch >= s.epoch ==>
      if msg.lastSeq <= s.applied then TruthfulOldAck(s, sender, msg)
      else !(EpochAt(s, msg.lastSeq) == Some(msg.lastEpoch) && LastSeq(s) > msg.lastSeq)
  }

  predicate Guarded(c: Cluster, ev: Event)
    requires Enabled(c, ev)
  {
    match ev
    case Deliver(p) =>
      (p.msg.Append? ==> TruthfulAck(c.hosts[p.dst].node, p.msg))
      && (p.msg.InstallSnapshot? ==> HarmlessSnapshot(c.hosts[p.dst].node, Sender(c, p), p.msg))
    case Crash(id) => CleanDisk(c.hosts[id].disk)
    case _ => true
  }
}
