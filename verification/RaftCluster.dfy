/**
 A cluster of Raft nodes with their disks and the set of messages ever sent. A message in the set may
 be delivered at any time, any number of times, or never. A node may stop between events or half-way
 through writing the operations of one, and restart from its disk. One crash is left out: the moment
 between saving a received snapshot and the writes that make it safe, which `SavedSafely` describes.
 */
module RaftCluster {
  import opened Basics
  import opened RaftTypes
  import opened RaftLog
  import opened RaftNode

  const PROBE_OFFSET: nat := 0xFFFF_FFFF_FFFF_FFFF

  datatype Node = Node(raft: NodeState, disk: Disk, transfer: bool)

  datatype Packet = Packet(dst: NodeId, msg: Message)

  datatype Chunk = Chunk(data: seq<byte>, done: bool)

  /** What the node's surroundings contribute to one event: the application's side of snapshots. */
  datatype Env = Env(chunkApplied: bool, progress: nat, stateData: seq<byte>, chunks: map<NodeId, Chunk>)

  datatype Event =
    | Receive(msg: Message)
    | Timeout
    | Tick
    | Submit(payload: seq<byte>)
    | SnapshotRequest(data: seq<byte>, through: Option<LogIndex>)

  /** An entry handed to the application of `node`, in `term`. */
  datatype Delivery = Delivery(node: NodeId, term: Term, entry: LogEntry)

  datatype Cluster = Cluster(nodes: map<NodeId, Node>, net: set<Packet>, delivered: set<Delivery>)

  // ---------- one event at one node ----------

  /** State and actions after an event, before anything is durable. */
  datatype Reaction = Reaction(raft: NodeState, actions: seq<Action>, saved: Option<Snapshot>, flush: bool)

  predicate IsProbe(m: Message)
    requires m.InstallSnapshot?
  {
    m.offset == PROBE_OFFSET && m.data == [] && !m.done
  }

  function ReceiveSnapshot(node: Node, m: Message, env: Env): Reaction
    requires m.InstallSnapshot?
  {
    var s := node.raft;
    var current := s.term <= m.term && node.transfer;
    var progress := if current then env.progress else 0;
    if current && !IsProbe(m) && !env.chunkApplied then
      Reaction(s, [SendTo(m.leader, InstallSnapshotResp(s.term, false, s.me, progress, 0))], None, false)
    else
      var r := OnMessage(s, m, progress);
      var installed := m.done && s.log.baseIndex < r.state.log.baseIndex;
      var snap := Snapshot(m.lastIndex, m.lastTerm, if node.transfer then env.stateData else m.data);
      Reaction(r.state, r.actions, if installed then Some(snap) else None, true)
  }

  function React(node: Node, ev: Event, env: Env): Reaction {
    var s := node.raft;
    match ev
    case Receive(m) =>
      if m.InstallSnapshot? then ReceiveSnapshot(node, m, env)
      else var r := OnMessage(s, m, 0); Reaction(r.state, r.actions, None, true)
    case Timeout => var r := ElectionTimeout(s); Reaction(r.state, r.actions, None, true)
    case Tick => Reaction(s, HeartbeatTick(s), None, true)
    case Submit(payload) =>
      var (outcome, r) := Propose(s, payload);
      Reaction(r.state, r.actions + if outcome.Accepted? then HeartbeatTick(r.state) else [], None, true)
    case SnapshotRequest(data, through) =>
      match TakeSnapshot(s, data, through)
      case None => Reaction(s, [], None, false)
      case Some((s', snap)) => Reaction(s', [], Some(snap), true)
  }

  /** The disk once the snapshot and the first operations of a reaction are on it. */
  function DiskAfter(d: Disk, saved: Option<Snapshot>, ops: seq<PersistOp>): Disk {
    ApplyOps(if saved.Some? then d.(snapshot := saved) else d, ops)
  }

  datatype Effects = Effects(raft: NodeState, sent: set<Packet>, applied: seq<LogEntry>)

  /** The snapshot message for `peer`; `None` when the state could not be read. */
  function SnapshotMessage(s: NodeState, snap: Snapshot, transfer: bool, peer: NodeId, env: Env): Option<Message> {
    if !transfer then
      Some(InstallSnapshot(s.term, s.me, snap.lastIndex, snap.lastTerm, 0, true, snap.data))
    else if peer !in s.snapshotCursor then
      Some(InstallSnapshot(s.term, s.me, snap.lastIndex, snap.lastTerm, PROBE_OFFSET, false, []))
    else if peer in env.chunks then
      Some(InstallSnapshot(s.term, s.me, snap.lastIndex, snap.lastTerm, s.snapshotCursor[peer],
                           env.chunks[peer].done, env.chunks[peer].data))
    else None
  }

  function PerformOne(e: Effects, d: Disk, transfer: bool, env: Env, a: Action): Effects {
    match a
    case SendTo(peer, m) => e.(sent := e.sent + {Packet(peer, m)})
    case Broadcast(m) => e.(sent := e.sent + set q | q in e.raft.peers :: Packet(q, m))
    case ResetElectionTimer => e
    case Apply(entry) => e.(applied := e.applied + [entry])
    case SendSnapshot(peer) =>
      match d.snapshot
      case None => e.(raft := e.raft.(nextIndex := e.raft.nextIndex[peer := e.raft.log.baseIndex + 1]))
      case Some(snap) =>
        match SnapshotMessage(e.raft, snap, transfer, peer, env)
        case None => e
        case Some(m) => e.(sent := e.sent + {Packet(peer, m)})
  }

  function Perform(e: Effects, d: Disk, transfer: bool, env: Env, actions: seq<Action>): Effects
    decreases |actions|
  {
    if actions == [] then e else Perform(PerformOne(e, d, transfer, env, actions[0]), d, transfer, env, actions[1..])
  }

  /** The whole event: make the changes durable, then send and apply. */
  function Process(node: Node, ev: Event, env: Env): (Node, Effects) {
    var r := React(node, ev, env);
    var d := DiskAfter(node.disk, r.saved, if r.flush then r.raft.pending else []);
    var s := if r.flush then r.raft.(pending := []) else r.raft;
    var e := Perform(Effects(s, {}, []), d, node.transfer, env, r.actions);
    (Node(e.raft, d, node.transfer), e)
  }

  // ---------- steps of the cluster ----------

  /** A membership change is not an ordinary entry; the peer set is fixed here. */
  predicate IsConfigEntry(payload: seq<byte>) {
    |payload| >= 4 && payload[..4] == [0xEE, 0xEE, 0xEE, 0xEE]
  }

  ghost predicate Enabled(c: Cluster, n: NodeId, ev: Event) {
    && n in c.nodes
    && (ev.Receive? ==> Packet(n, ev.msg) in c.net)
    && (ev.Submit? ==> !IsConfigEntry(ev.payload))
  }

  ghost function AfterEvent(c: Cluster, n: NodeId, ev: Event, env: Env): Cluster
    requires n in c.nodes
  {
    var (node, e) := Process(c.nodes[n], ev, env);
    Cluster(c.nodes[n := node], c.net + e.sent,
            c.delivered + set x | x in e.applied :: Delivery(n, node.raft.term, x))
  }

  /** A crash leaves some of the operations on disk, and of an append possibly only its first entries. */
  function Torn(ops: seq<PersistOp>, k: nat, m: nat): seq<PersistOp>
    requires k <= |ops|
  {
    ops[..k] + if k < |ops| && ops[k].Append? && m <= |ops[k].entries| then [Append(ops[k].entries[..m])] else []
  }

  /**
   After a received snapshot was saved, with the first `k` operations on disk: the message's term is
   durable, and the stored log is trimmed already or has nothing past the snapshot that it replaced.
   */
  predicate SavedSafely(s: NodeState, m: Message, ops: seq<PersistOp>, k: nat)
    requires m.InstallSnapshot? && k <= |ops|
  {
    && (m.term == s.term || exists i :: 0 <= i < k && ops[i].HardState?)
    && (k == |ops| || KeepsSuffix(s.log, m.lastIndex, m.lastTerm) || LastIndex(s.log) <= m.lastIndex)
  }

  /**
   The disk a crash in the middle of an event leaves behind. A crash between saving a received snapshot
   and what makes it safe is not among them.
   */
  ghost predicate LeavesDisk(node: Node, ev: Event, env: Env, d: Disk) {
    var r := React(node, ev, env);
    r.flush && exists k: nat, m: nat ::
      && k <= |r.raft.pending| && d == DiskAfter(node.disk, r.saved, Torn(r.raft.pending, k, m))
      && (ev.Receive? && ev.msg.InstallSnapshot? && r.saved.Some? ==> SavedSafely(node.raft, ev.msg, r.raft.pending, k))
  }

  /** `node` restarts from disk `d`. */
  ghost predicate Restarts(node: Node, d: Disk, node': Node) {
    var s := Restore(node.raft.me, node.raft.peers, node.raft.noopOnElect, d);
    s.Some? && node' == Node(s.value, d, node.transfer)
  }

  ghost predicate CrashStep(c: Cluster, c': Cluster, n: NodeId) {
    n in c.nodes &&
    exists node' :: Restarts(c.nodes[n], c.nodes[n].disk, node') && c' == c.(nodes := c.nodes[n := node'])
  }

  ghost predicate TornStep(c: Cluster, c': Cluster, n: NodeId, ev: Event, env: Env) {
    Enabled(c, n, ev) && exists d, node' ::
      LeavesDisk(c.nodes[n], ev, env, d) && Restarts(c.nodes[n], d, node') && c' == c.(nodes := c.nodes[n := node'])
  }

  ghost predicate Next(c: Cluster, c': Cluster) {
    || (exists n, ev, env :: Enabled(c, n, ev) && c' == AfterEvent(c, n, ev, env))
    || (exists n :: CrashStep(c, c', n))
    || (exists n, ev, env :: TornStep(c, c', n, ev, env))
  }

  /** The peers of `n`: every other member, once. */
  ghost predicate PeersOf(peers: seq<NodeId>, members: set<NodeId>, n: NodeId) {
    && (forall q :: q in peers <==> q in members && q != n)
    && (forall i, j :: 0 <= i < j < |peers| ==> peers[i] != peers[j])
  }

  ghost predicate Init(c: Cluster) {
    && c.net == {} && c.delivered == {}
    && forall n :: n in c.nodes ==>
      && PeersOf(c.nodes[n].raft.peers, c.nodes.Keys, n)
      && c.nodes[n].raft == Fresh(n, c.nodes[n].raft.peers, c.nodes[n].raft.noopOnElect)
      && c.nodes[n].disk == Disk(0, None, [], None)
  }

  /** A run: any number of steps from an initial cluster. */
  ghost predicate Run(trace: seq<Cluster>) {
    && trace != [] && Init(trace[0])
    && forall i :: 0 <= i < |trace| - 1 ==> Next(trace[i], trace[i + 1])
  }
}
