/**
The driver of one replica, updated in place: the replica object, its store, its
database file, and the loop that carries out actions in order.

A driver's turn is proved to be a turn of the cluster model, possibly followed by
a compaction, so what is proved of runs holds of drivers.
*/
module Driver {
  import opened Options
  import opened Quorum
  import opened Cluster
  import opened RaftNode
  import opened Mirror

  class D1Driver {
    const raft: Raft
    const machine: Machine
    const group: seq<Id>
    const threshold: nat
    const keepTail: nat
    var disk: Disk
    var sent: set<Packet>
    var applied: set<Application>

    predicate Valid()
      reads this, raft
    {
      raft.Valid()
    }

    function View(): Host
      reads this, raft
    {
      Host(raft.View(), disk)
    }

    /** Restart from what is stored; the database file tells how far it was applied. */
    constructor Open(machine: Machine, me: Id, group: seq<Id>, disk: Disk, threshold: nat, keepTail: nat)
      ensures Valid() && fresh(raft) && this.machine == machine && this.group == group
      ensures this.threshold == threshold && this.keepTail == keepTail
      ensures forall h: Host :: h.disk == disk && h.node.me == me ==> View() == RestartHost(h, group)
      ensures sent == {} && applied == {}
    {
      raft := new Raft.Restore(me, group, disk.epoch, disk.votedFor, disk.baseSeq, disk.baseEpoch, disk.log, disk.file.marker);
      this.machine, this.group, this.disk := machine, group, disk;
      this.threshold, this.keepTail := threshold, keepTail;
      sent, applied := {}, {};
    }

    /** Run a committed command in one transaction with its marker; a failing command changes nothing. */
    method Apply(e: Entry)
      modifies this`disk, this`applied
      ensures disk == old(disk).(file := ApplyFile(machine, old(disk).file, e))
      ensures var r := machine.run(old(disk).file.db, e.cmd);
              if r.Some? then disk.file == DbFile(r.value, e.seqno) else disk == old(disk)
      ensures applied == old(applied) + {Application(raft.me, e)}
    {
      var r := machine.run(disk.file.db, e.cmd);
      if r.Some? {
        disk := disk.(file := DbFile(r.value, e.seqno));
      }
      applied := applied + {Application(raft.me, e)};
    }

    /** Swap the file in; the declared position overrides the marker it carries. */
    method InstallSnapshot(seqno: nat, data: DbFile)
      modifies this`disk
      ensures disk == old(disk).(file := DbFile(data.db, seqno))
    {
      disk := disk.(file := data);
      if disk.file.marker != seqno {
        disk := disk.(file := disk.file.(marker := seqno));
      }
    }

    /** Once the log outgrows the threshold, drop applied entries from the replica and then from the store. */
    method MaybeCompact()
      requires Valid()
      modifies this`disk, raft
      ensures Valid()
      ensures View() == if |old(raft.log)| > threshold then ShrinkHost(old(View()), keepTail) else old(View())
      ensures old(raft.baseSeq) <= old(raft.applied) <= old(raft.baseSeq) + |old(raft.log)| ==>
                && (if |old(raft.log)| > threshold && raft.applied > old(raft.baseSeq) + keepTail
                    then raft.baseSeq == disk.baseSeq == raft.applied - keepTail
                    else raft.baseSeq == old(raft.baseSeq) && disk == old(disk))
                && |raft.log| <= Max(threshold, |old(raft.log)| - (raft.applied - old(raft.baseSeq)) + keepTail)
    {
      if |raft.log| <= threshold {
        return;
      }
      var dropped := raft.Compact(keepTail);
      if dropped {
        disk := disk.(log := EntriesFrom(disk.log, raft.baseSeq + 1));
        disk := SaveMeta(disk, raft.View());
      }
    }

    /** Carry out the actions in order, then compact. */
    method Execute(actions: seq<Action>)
      requires Valid()
      modifies this`disk, this`sent, this`applied, raft
      ensures Valid()
      ensures View() == Tidied(Host(old(raft.View()), Save(machine, old(raft.View()), old(disk), actions)), threshold, keepTail)
      ensures sent == old(sent) + Sends(machine, old(raft.View()), old(disk), actions)
      ensures applied == old(applied) + Applies(old(raft.View()).me, actions)
    {
      ghost var s := raft.View();
      for i := 0 to |actions|
        invariant Valid() && raft.View() == s
        invariant Save(machine, s, disk, actions[i..]) == Save(machine, s, old(disk), actions)
        invariant sent + Sends(machine, s, disk, actions[i..]) == old(sent) + Sends(machine, s, old(disk), actions)
        invariant applied == old(applied) + Applies(s.me, actions[..i])
      {
        assert actions[i..][0] == actions[i] && actions[i..][1..] == actions[i + 1..];
        AppliesSnoc(s.me, actions, i);
        ghost var d := disk;
        match actions[i] {
          case PersistMeta => disk := SaveMeta(disk, raft.View());
          case PersistLog(q) => disk := SaveLog(disk, raft.View(), q);
          case Send(to, msg) => sent := sent + {Packet(raft.me, to, msg)};
          case Apply(e) => Apply(e);
          case NeedSnapshot(to) =>
            var v := raft.View();
            sent := sent + {Packet(raft.me, to, Msg.InstallSnapshot(raft.epoch, SnapshotSeq(v), SnapshotEpoch(v), disk.file))};
          case ApplySnapshot(q, data) => InstallSnapshot(q, data);
          case BecameLeader =>
          case LostLeadership =>
        }
        assert disk == SaveOne(machine, s, d, actions[i]);
      }
      assert actions[|actions|..] == [] && actions[..|actions|] == actions;
      MaybeCompact();
    }

    method Deliver(from: Id, msg: Msg)
      requires Valid()
      modifies this`disk, this`sent, this`applied, raft
      ensures Valid()
      ensures var s := old(View());
              Turned(s, Quorum.Handle(s.node, from, msg), old(sent), old(applied), View(), sent, applied, machine, threshold, keepTail)
    {
      var actions := raft.Handle(from, msg);
      Execute(actions);
    }

    method Timeout()
      requires Valid()
      modifies this`disk, this`sent, this`applied, raft
      ensures Valid()
      ensures var s := old(View());
              Turned(s, Quorum.TickElection(s.node), old(sent), old(applied), View(), sent, applied, machine, threshold, keepTail)
    {
      var actions := raft.TickElection();
      Execute(actions);
    }

    method Pulse()
      requires Valid()
      modifies this`disk, this`sent, this`applied, raft
      ensures Valid()
      ensures var s := old(View());
              Turned(s, Quorum.Heartbeat(s.node), old(sent), old(applied), View(), sent, applied, machine, threshold, keepTail)
    {
      var actions := raft.Heartbeat();
      Execute(actions);
    }

    /** Propose a command; a replica that does not lead answers with a hint and does nothing. */
    method Propose(cmd: Command) returns (hint: Option<Option<Id>>)
      requires Valid()
      modifies this`disk, this`sent, this`applied, raft
      ensures Valid() && (hint.Some? <==> !IsLeader(old(View()).node))
      ensures hint.Some? ==> View() == old(View()) && sent == old(sent) && applied == old(applied)
      ensures var s := old(View());
              hint.None? ==>
                Turned(s, Quorum.Propose(s.node, cmd), old(sent), old(applied), View(), sent, applied, machine, threshold, keepTail)
    {
      var r := raft.Propose(cmd);
      match r
      case NotLeader(h) => return Some(h);
      case Accepted(_, actions) =>
        Execute(actions);
        return None;
    }
  }

  /** The host once a turn is carried out and compaction had its chance. */
  function Tidied(h: Host, threshold: nat, keepTail: nat): Host {
    if |h.node.log| > threshold then ShrinkHost(h, keepTail) else h
  }

  /** The driver carried out the outcome `r` of a turn that began at `h`. */
  predicate Turned(h: Host, r: Outcome, sent: set<Packet>, applied: set<Application>, h': Host, sent': set<Packet>,
                   applied': set<Application>, m: Machine, threshold: nat, keepTail: nat) {
    && h' == Tidied(Host(r.node, Save(m, r.node, h.disk, r.actions)), threshold, keepTail)
    && sent' == sent + Sends(m, r.node, h.disk, r.actions)
    && applied' == applied + Applies(r.node.me, r.actions)
  }

  lemma AppliesSnoc(id: Id, actions: seq<Action>, i: nat)
    requires i < |actions|
    ensures Applies(id, actions[..i + 1])
         == Applies(id, actions[..i]) + (if actions[i].Apply? then {Application(id, actions[i].entry)} else {})
  {
    var before, after := Applies(id, actions[..i]), Applies(id, actions[..i + 1]);
    var extra := if actions[i].Apply? then {Application(id, actions[i].entry)} else {};
    assert actions[..i + 1] == actions[..i] + [actions[i]];
    forall a | a in before + extra
      ensures a in after
    {
      if a in extra {
        assert actions[i] in actions[..i + 1];
      } else {
        var x :| x in actions[..i] && x.Apply? && a == Application(id, x.entry);
        assert x in actions[..i + 1];
      }
    }
    assert before + extra == after;
  }

  /** What a driver makes of a turn is what the cluster model makes of its events. */
  lemma DriverTurnsAreSteps(m: Machine, group: seq<Id>, c: Cluster, ev: Event, threshold: nat, keepTail: nat,
          h': Host, sent': set<Packet>, applied': set<Application>)
    requires Enabled(c, ev) && AllWellFormed(c) && !ev.Shrink? && !ev.Crash? && c.hosts[Actor(ev)].node.me == Actor(ev)
    requires Turn(c.hosts[Actor(ev)].node, ev).node.me == Actor(ev)
    requires WellFormed(Turn(c.hosts[Actor(ev)].node, ev).node)
    requires var h := c.hosts[Actor(ev)]; Turned(h, Turn(h.node, ev), c.net, c.applied, h', sent', applied', m, threshold, keepTail)
    ensures var c1 := Next(m, group, c, ev);
            var long := |Turn(c.hosts[Actor(ev)].node, ev).node.log| > threshold;
            var c2 := if long then Next(m, group, c1, Shrink(Actor(ev), keepTail)) else c1;
            c2.hosts == c.hosts[Actor(ev) := h'] && c2.net == sent' && c2.applied == applied'
  {
  }
}
