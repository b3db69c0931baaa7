/**
A cluster of drivers around the decision core.

Each host runs one node and owns one disk: the persisted epoch, vote and
snapshot point, the stored log and the database file with its applied marker.
One event is one driver turn: a timer, a client command, one delivered
message, a compaction or a restart.  Packets are never removed from the
network, so a message may be delivered late, twice, out of order or not at
all; a restart keeps the disk and nothing else.  A turn is atomic.
*/
module Cluster {
  import opened Options
  import opened Quorum
  import opened Collections

  /** A database that executes commands deterministically; a failing command has no effect. */
  datatype Machine = Machine(empty: Database, run: (Database, Command) -> Option<Database>)

  /** The effect of one command: a failing one leaves the database alone. */
  function Effect(m: Machine, db: Database, cmd: Command): Database {
    if m.run(db, cmd).Some? then m.run(db, cmd).value else db
  }

  /** The database after every command of `log`, each exactly once. */
  function Replay(m: Machine, log: seq<Entry>): Database {
    if log == [] then m.empty else Effect(m, Replay(m, log[..|log| - 1]), log[|log| - 1].cmd)
  }

  datatype Disk = Disk(epoch: nat, votedFor: Option<Id>, baseSeq: nat, baseEpoch: nat, log: seq<Entry>, file: DbFile)

  datatype Host = Host(node: Node, disk: Disk)

  datatype Packet = Packet(src: Id, dst: Id, msg: Msg)

  datatype Application = Application(id: Id, entry: Entry)

  datatype Leadership = Leadership(epoch: nat, id: Id)

  /** `applied` and `leaders` record everything that ever happened in the run. */
  datatype Cluster = Cluster(hosts: map<Id, Host>, net: set<Packet>, applied: set<Application>, leaders: set<Leadership>)

  datatype Event =
    | Timeout(id: Id)
    | Pulse(id: Id)
    | Client(id: Id, cmd: Command)
    | Deliver(packet: Packet)
    | Shrink(id: Id, keepTail: nat)
    | Crash(id: Id)

  // ---------------------------------------------------------------- the driver

  function EntriesBelow(log: seq<Entry>, q: nat): seq<Entry> {
    if log == [] then []
    else (if log[0].seqno < q then [log[0]] else []) + EntriesBelow(log[1..], q)
  }

  function SaveMeta(disk: Disk, s: Node): Disk {
    disk.(epoch := s.epoch, votedFor := s.votedFor, baseSeq := s.baseSeq, baseEpoch := s.baseEpoch)
  }

  /** Truncate the stored log from `q` onward, then append the node's tail. */
  function SaveLog(disk: Disk, s: Node, q: nat): Disk {
    disk.(log := EntriesBelow(disk.log, q) + EntriesFrom(s.log, q))
  }

  /** Run one committed command; the marker moves only when the command succeeds. */
  function ApplyFile(m: Machine, f: DbFile, e: Entry): DbFile {
    var r := m.run(f.db, e.cmd);
    if r.Some? then DbFile(r.value, e.seqno) else f
  }

  function SaveOne(m: Machine, s: Node, disk: Disk, a: Action): Disk {
    match a
    case PersistMeta => SaveMeta(disk, s)
    case PersistLog(q) => SaveLog(disk, s, q)
    case Apply(e) => disk.(file := ApplyFile(m, disk.file, e))
    case ApplySnapshot(q, data) => disk.(file := DbFile(data.db, q))
    case _ => disk
  }

  /** The disk after the driver carried out `actions` in order for node `s`. */
  function Save(m: Machine, s: Node, disk: Disk, actions: seq<Action>): Disk
    decreases |actions|
  {
    if actions == [] then disk else Save(m, s, SaveOne(m, s, disk, actions[0]), actions[1..])
  }

  function SendOne(s: Node, disk: Disk, a: Action): set<Packet> {
    match a
    case Send(to, msg) => {Packet(s.me, to, msg)}
    case NeedSnapshot(to) => {Packet(s.me, to, InstallSnapshot(s.epoch, SnapshotSeq(s), SnapshotEpoch(s), disk.file))}
    case _ => {}
  }

  /** The packets sent while carrying out `actions`; a snapshot ships the file as it is at that moment. */
  function Sends(m: Machine, s: Node, disk: Disk, actions: seq<Action>): set<Packet>
    decreases |actions|
  {
    if actions == [] then {}
    else SendOne(s, disk, actions[0]) + Sends(m, s, SaveOne(m, s, disk, actions[0]), actions[1..])
  }

  function Applies(id: Id, actions: seq<Action>): set<Application> {
    set a | a in actions && a.Apply? :: Application(id, a.entry)
  }

  function Wins(s: Node, actions: seq<Action>): set<Leadership> {
    if BecameLeader in actions then {Leadership(s.epoch, s.me)} else {}
  }

  // ---------------------------------------------------------------- events

  predicate Enabled(c: Cluster, ev: Event) {
    match ev
    case Deliver(p) => p in c.net && p.dst in c.hosts
    case _ => ev.id in c.hosts
  }

  function Actor(ev: Event): Id {
    if ev.Deliver? then ev.packet.dst else ev.id
  }

  /** What the node answers to an event that reaches it. */
  function Turn(s: Node, ev: Event): Outcome
    requires WellFormed(s) && !ev.Shrink? && !ev.Crash?
  {
    match ev
    case Timeout(_) => TickElection(s)
    case Pulse(_) => Heartbeat(s)
    case Client(_, cmd) => Propose(s, cmd)
    case Deliver(p) => Handle(s, p.src, p.msg)
  }

  function ShrinkHost(h: Host, keepTail: nat): Host {
    var s := Compact(h.node, keepTail);
    if s == h.node then h
    else Host(s, SaveMeta(h.disk.(log := EntriesFrom(h.disk.log, s.baseSeq + 1)), s))
  }

  function RestartHost(h: Host, group: seq<Id>): Host {
    var d := h.disk;
    Host(Restore(h.node.me, group, d.epoch, d.votedFor, d.baseSeq, d.baseEpoch, d.log, d.file.marker), d)
  }

  /** The cluster once the driver of `id` carried out an outcome. */
  function Carried(m: Machine, c: Cluster, id: Id, r: Outcome): Cluster
    requires id in c.hosts
  {
    var disk := c.hosts[id].disk;
    Cluster(c.hosts[id := Host(r.node, Save(m, r.node, disk, r.actions))],
            c.net + Sends(m, r.node, disk, r.actions),
            c.applied + Applies(id, r.actions),
            c.leaders + Wins(r.node, r.actions))
  }

  function Next(m: Machine, group: seq<Id>, c: Cluster, ev: Event): Cluster
    requires Enabled(c, ev) && WellFormed(c.hosts[Actor(ev)].node)
  {
    var id := Actor(ev);
    var h := c.hosts[id];
    match ev
    case Shrink(_, keepTail) => c.(hosts := c.hosts[id := ShrinkHost(h, keepTail)])
    case Crash(_) => c.(hosts := c.hosts[id := RestartHost(h, group)])
    case _ => Carried(m, c, id, Turn(h.node, ev))
  }

  function FreshHost(m: Machine, id: Id, group: seq<Id>): Host {
    Host(New(id, group), Disk(0, None, 0, 0, [], DbFile(m.empty, 0)))
  }

  function Init(m: Machine, group: seq<Id>): Cluster {
    Cluster(map id | id in group :: FreshHost(m, id, group), {}, {}, {})
  }

  predicate AllWellFormed(c: Cluster) {
    forall id :: id in c.hosts ==> WellFormed(c.hosts[id].node)
  }

  // ---------------------------------------------------------------- runs

  ghost predicate Step(m: Machine, group: seq<Id>, c: Cluster, ev: Event, c': Cluster) {
    Enabled(c, ev) && AllWellFormed(c) && c' == Next(m, group, c, ev)
  }

  /** The clusters passed through when the events of `evs` happen one after the other. */
  ghost predicate IsRun(m: Machine, group: seq<Id>, cs: seq<Cluster>, evs: seq<Event>) {
    && NoRepeats(group)
    && |cs| == |evs| + 1
    && cs[0] == Init(m, group)
    && (forall i {:trigger evs[i]} :: 0 <= i < |evs| ==> Step(m, group, cs[i], evs[i], cs[i + 1]))
  }

  lemma RunPrefix(m: Machine, group: seq<Id>, cs: seq<Cluster>, evs: seq<Event>)
    requires IsRun(m, group, cs, evs) && evs != []
    ensures IsRun(m, group, cs[..|evs|], evs[..|evs| - 1])
    ensures Step(m, group, cs[|evs| - 1], evs[|evs| - 1], cs[|evs|])
  {
  }
}
