/** Every step of a running cluster, whole or torn by a crash, is followed by the protocol. */
module RaftNext {
  import opened Basics
  import opened RaftTypes
  import opened RaftLog
  import opened RaftNode
  import opened RaftCluster
  import opened RaftSim
  import opened RaftSteps
  import opened RaftFollower
  import opened RaftEvents
  import opened RaftDurable
  import opened RaftRestart
  import opened RaftTorn
  import P = RaftProtocol

  // ---------- the reaction of one node ----------

  lemma ReactFollows(p: P.Proto, n: NodeId, node: Node, ev: Event, env: Env) returns (p': P.Proto)
    requires P.Inv(p) && NodeOk(p, n, node.raft) && (ev.Receive? ==> MessageOk(p, n, ev.msg))
    ensures var r := React(node, ev, env); Follows(p, p', n, r.raft) && ActionsOk(p', r.raft, r.actions)
  {
    hide P.Inv, P.Moved, NodeOk, OnMessage, ElectionTimeout, Propose, TakeSnapshot, HeartbeatTick;
    p' := p;
    P.NothingMoves(p, n);
    var s := node.raft;
    match ev
    case Receive(m) =>
      var progress := if m.InstallSnapshot? && s.term <= m.term && node.transfer then env.progress else 0;
      if !(m.InstallSnapshot? && s.term <= m.term && node.transfer && !IsProbe(m) && !env.chunkApplied) {
        p' := OnMessageOk(p, n, s, m, progress);
      }
    case Timeout => p' := TimeoutOk(p, n, s);
    case Tick => HeartbeatOk(p, n, s);
    case Submit(payload) => p' := ProposeOk(p, n, s, payload);
    case SnapshotRequest(data, through) =>
      if TakeSnapshot(s, data, through).Some? { TakeSnapshotOk(p, n, s, data, through); }
  }

  // ---------- the base of the log moves only with a saved snapshot ----------

  predicate SameBase(l: Log, l': Log) {
    l'.baseIndex == l.baseIndex && l'.baseTerm == l.baseTerm
  }

  lemma AppendKeepsBase(l: Log, start: LogIndex, es: seq<LogEntry>, committed: LogIndex)
    ensures var r := AppendAt(l, start, es, committed); r.Appended? ==> SameBase(l, r.log)
  {
    hide ScanFrom, Renumber;
  }

  lemma DispatchBase(s: NodeState, m: Message, progress: nat)
    ensures var s' := Dispatch(s, m, progress).state;
            SameBase(s.log, s'.log)
            || (m.InstallSnapshot? && m.done && s.log.baseIndex < m.lastIndex
                && s'.log.baseIndex == m.lastIndex && s'.log.baseTerm == m.lastTerm)
  {
    hide CommitCandidate, ReplicateTo, Matched, AppendAt, HeartbeatTick, BecomeLeader, PersistHard, EntriesFrom,
         KeepsSuffix;
    match m
    case RequestVote(_, _, _, _) => HardKeepsLog(s.(votedFor := Some(m.candidate)));
    case RequestVoteResp(_, _, _) => LeadPending(s.(votes := s.votes + {m.voter}));
    case AppendEntries(_, _, _, _, _, _) =>
      FollowLog(s, m.term, m.leader);
      AppendKeepsBase(s.log, m.prevLogIndex + 1, m.entries, s.commitIndex);
      HardKeepsLog(s.(term := m.term, votedFor := None));
    case AppendEntriesResp(_, _, _, _) =>
    case InstallSnapshot(_, _, _, _, _, _, _) => FollowLog(s, m.term, m.leader);
    case InstallSnapshotResp(_, _, _, _, _) =>
  }

  lemma HardKeepsLog(s: NodeState)
    ensures PersistHard(s).log == s.log && PersistHard(s).commitIndex == s.commitIndex
  {
  }

  lemma MessageBase(s: NodeState, m: Message, progress: nat)
    ensures var s' := OnMessage(s, m, progress).state;
            SameBase(s.log, s'.log)
            || (m.InstallSnapshot? && m.done && s.log.baseIndex < m.lastIndex
                && s'.log.baseIndex == m.lastIndex && s'.log.baseTerm == m.lastTerm)
  {
    hide Dispatch, StepDown, Drain;
    if !Ignored(s, m) {
      var s1 := if s.term < m.term then StepDown(s, m.term) else s;
      StepDownLog(s, m.term);
      DispatchBase(s1, m, progress);
      DrainKeepsLog(Dispatch(s1, m, progress).state);
    }
  }

  lemma ReactBase(node: Node, ev: Event, env: Env)
    ensures var r := React(node, ev, env);
            if r.saved.Some? then 0 < r.saved.value.lastIndex && SnapshotRests(r.raft.log, r.saved)
            else SameBase(node.raft.log, r.raft.log)
  {
    hide OnMessage, ElectionTimeout, Propose, TakeSnapshot, HeartbeatTick;
    var s := node.raft;
    match ev
    case Receive(m) =>
      MessageBase(s, m, 0);
      MessageBase(s, m, env.progress);
    case Timeout => TimeoutBase(s);
    case Tick =>
    case Submit(payload) => ProposeBase(s, payload);
    case SnapshotRequest(data, through) => SnapshotBase(s, data, through);
  }

  lemma TimeoutBase(s: NodeState)
    ensures SameBase(s.log, ElectionTimeout(s).state.log)
  {
    hide BecomeLeader, HeartbeatTick, PersistHard, Drain;
    var c := Campaign(s);
    HardKeepsLog(s.(term := s.term + 1, role := Candidate, votedFor := Some(s.me), votes := {s.me},
                    leaderHint := None));
    LeadPending(c);
    DrainKeepsLog(BecomeLeader(c));
  }

  lemma ProposeBase(s: NodeState, payload: seq<byte>)
    ensures SameBase(s.log, Propose(s, payload).1.state.log)
  {
    hide Recompute, Drain;
    RecomputeSame(AppendLocal(s, payload));
    DrainKeepsLog(Recompute(AppendLocal(s, payload)));
  }

  lemma SnapshotBase(s: NodeState, data: seq<byte>, through: Option<LogIndex>)
    ensures TakeSnapshot(s, data, through).Some? ==>
            var (s', snap) := TakeSnapshot(s, data, through).value;
            0 < snap.lastIndex && SnapshotRests(s'.log, Some(snap))
  {
    hide TermAt, CompactTo;
    if TakeSnapshot(s, data, through).Some? {
      var snap := TakeSnapshot(s, data, through).value.1;
      CompactBase(s.log, snap.lastIndex, snap.lastTerm);
    }
  }

  // ---------- durable before sent ----------

  function RaftAfter(r: Reaction): NodeState {
    if r.flush then r.raft.(pending := []) else r.raft
  }

  function DiskAfterReact(node: Node, r: Reaction): Disk {
    DiskAfter(node.disk, r.saved, if r.flush then r.raft.pending else [])
  }

  /** Once an event's operations are durable, the disk is at rest again. */
  lemma ReactRests(p: P.Proto, n: NodeId, node: Node, ev: Event, env: Env)
    requires Resting(p, n, node.raft, node.disk)
    ensures var r := React(node, ev, env); DiskRests(RaftAfter(r), DiskAfterReact(node, r))
  {
    hide P.Inv, NodeOk, Mirror, React, WellIndexed, SnapshotRests;
    var r := React(node, ev, env);
    Mirrored(p, n, node.raft, node.disk);
    if r.flush {
      ReactMirrors(node, ev, env);
      ReactBase(node, ev, env);
      MirrorIs(r.raft, node.disk);
      SavedAside(node.disk, r.saved, r.raft.pending);
      ReplaySnapshot(node.disk, r.raft.pending);
      if r.saved.None? { SameBaseRests(node.raft.log, r.raft.log, node.disk.snapshot); }
    } else {
      NoFlush(node, ev, env);
    }
  }

  lemma NoFlush(node: Node, ev: Event, env: Env)
    ensures var r := React(node, ev, env); !r.flush ==> r.raft == node.raft && r.saved == None
  {
    hide OnMessage, ElectionTimeout, Propose, TakeSnapshot, HeartbeatTick;
  }

  // ---------- sending and applying ----------

  /** Fields a driver leaves alone while it performs actions. */
  predicate SameButNext(s: NodeState, s': NodeState) {
    s' == s.(nextIndex := s'.nextIndex)
  }

  ghost predicate EffectsOk(p: P.Proto, e: Effects) {
    && (forall x :: x in e.sent ==> MessageOk(p, x.dst, x.msg))
    && (forall x :: x in e.applied ==> DeliveryOk(p, e.raft.term, x))
  }

  lemma SnapshotMessageOk(p: P.Proto, n: NodeId, s: NodeState, snap: Snapshot, transfer: bool, peer: NodeId, env: Env)
    requires P.Inv(p) && NodeOk(p, n, s) && s.role == Leader && peer != n && SnapshotRests(s.log, Some(snap))
    ensures var m := SnapshotMessage(s, snap, transfer, peer, env); m.Some? ==> MessageOk(p, peer, m.value)
  {
    hide P.Inv, PeersOf, CommitKnown, CommitPoint;
    LeaderFacts(p, s.term);
    CommitKnownLess(p, p.full[n], s.commitIndex, s.log.baseIndex, s.term);
    CommitIsPoint(p, p.full[n], s.log.baseIndex, s.term);
  }

  lemma NextIndexOk(p: P.Proto, n: NodeId, s: NodeState, peer: NodeId)
    requires NodeOk(p, n, s) && s.log.baseIndex == 0
    ensures NodeOk(p, n, s.(nextIndex := s.nextIndex[peer := 1]))
  {
    hide PeersOf, CommitKnown, Represents;
  }

  lemma PerformOneOk(p: P.Proto, n: NodeId, e: Effects, d: Disk, transfer: bool, env: Env, a: Action)
    requires P.Inv(p) && NodeOk(p, n, e.raft) && SnapshotRests(e.raft.log, d.snapshot) && EffectsOk(p, e) &&
             ActionOk(p, e.raft, a)
    ensures var e' := PerformOne(e, d, transfer, env, a);
            NodeOk(p, n, e'.raft) && SameButNext(e.raft, e'.raft) && EffectsOk(p, e')
  {
    hide P.Inv, MessageOk, DeliveryOk, SnapshotMessage, P.Moved;
    if a.SendSnapshot? {
      assert e.raft.me == n by { NodeMe(p, n, e.raft); }
      if d.snapshot.Some? {
        SnapshotMessageOk(p, n, e.raft, d.snapshot.value, transfer, a.peer, env);
      } else {
        NextIndexOk(p, n, e.raft, a.peer);
      }
    }
  }

  lemma {:induction false} PerformOk(p: P.Proto, n: NodeId, e: Effects, d: Disk, transfer: bool, env: Env,
                                     actions: seq<Action>)
    requires P.Inv(p) && NodeOk(p, n, e.raft) && SnapshotRests(e.raft.log, d.snapshot) && EffectsOk(p, e) &&
             ActionsOk(p, e.raft, actions)
    ensures var e' := Perform(e, d, transfer, env, actions);
            NodeOk(p, n, e'.raft) && SameButNext(e.raft, e'.raft) && EffectsOk(p, e')
    decreases |actions|
  {
    hide P.Inv, NodeOk, EffectsOk, SnapshotRests, MessageOk, DeliveryOk, PerformOne;
    if actions != [] {
      PerformOneOk(p, n, e, d, transfer, env, actions[0]);
      var e1 := PerformOne(e, d, transfer, env, actions[0]);
      forall a | a in actions[1..] ensures ActionOk(p, e1.raft, a) { assert ActionOk(p, e.raft, a); }
      PerformOk(p, n, e1, d, transfer, env, actions[1..]);
    }
  }

  /** One whole event at one node. */
  lemma ProcessOk(p: P.Proto, n: NodeId, node: Node, ev: Event, env: Env) returns (p': P.Proto)
    requires Resting(p, n, node.raft, node.disk) && (ev.Receive? ==> MessageOk(p, n, ev.msg))
    ensures var (node', e) := Process(node, ev, env);
            && Follows(p, p', n, node'.raft) && DiskRests(node'.raft, node'.disk)
            && EffectsOk(p', e) && e.raft == node'.raft
  {
    hide P.Inv, P.Moved, NodeOk, DiskRests, React, Perform, MessageOk, SnapshotRests, DeliveryOk, DiskAfter;
    var r := React(node, ev, env);
    if r.flush {
      p' := ReactFollows(p, n, node, ev, env);
      ReactRests(p, n, node, ev, env);
    } else {
      p' := p;
      P.NothingMoves(p, n);
      NoFlush(node, ev, env);
      ReactRests(p, n, node, ev, env);
      NoFlushActions(p, node, ev, env);
    }
    var s, d := RaftAfter(r), DiskAfterReact(node, r);
    assert NodeOk(p', n, s) by { PendingAside(p', n, r.raft); }
    assert SnapshotRests(s.log, d.snapshot) by { RestsSnapshot(s, d); }
    assert ActionsOk(p', s, r.actions) by { ActionsAside(p', r.raft, r.actions); }
    PerformOk(p', n, Effects(s, {}, []), d, node.transfer, env, r.actions);
    var e := Perform(Effects(s, {}, []), d, node.transfer, env, r.actions);
    NextAside(s, e.raft, d);
  }

  lemma NoFlushActions(p: P.Proto, node: Node, ev: Event, env: Env)
    ensures var r := React(node, ev, env); !r.flush ==> ActionsOk(p, r.raft, r.actions)
  {
    hide OnMessage, ElectionTimeout, Propose, TakeSnapshot, HeartbeatTick;
  }

  lemma PendingAside(p: P.Proto, n: NodeId, s: NodeState)
    requires NodeOk(p, n, s)
    ensures NodeOk(p, n, s.(pending := []))
  {
    hide PeersOf, Represents, CommitKnown, CandidateOk, LeaderOk, VoteOk;
  }

  lemma ActionsAside(p: P.Proto, s: NodeState, actions: seq<Action>)
    requires ActionsOk(p, s, actions)
    ensures ActionsOk(p, s.(pending := []), actions)
  {
    forall a | a in actions ensures ActionOk(p, s.(pending := []), a) { assert ActionOk(p, s, a); }
  }

  lemma RestsSnapshot(s: NodeState, d: Disk)
    requires DiskRests(s, d)
    ensures SnapshotRests(s.log, d.snapshot)
  {
  }

  lemma NextAside(s: NodeState, s': NodeState, d: Disk)
    requires DiskRests(s, d) && SameButNext(s, s')
    ensures DiskRests(s', d)
  {
  }

  // ---------- the cluster ----------

  lemma NodesStay(p: P.Proto, p': P.Proto, c: Cluster, n: NodeId, node': Node)
    requires NodesOk(p, c) && P.Moved(p, p', n)
    requires NodeOk(p', n, node'.raft) && DiskRests(node'.raft, node'.disk)
    ensures NodesOk(p', c.(nodes := c.nodes[n := node']))
  {
    hide NodeOk, DiskRests, P.Extends;
    forall m | m in c.nodes && m != n
      ensures NodeOk(p', m, c.nodes[m].raft) && m in p'.full && DiskRests(c.nodes[m].raft, c.nodes[m].disk)
    {
      OtherNodeStays(p, p', n, m, c.nodes[m].raft);
      NodeRepresents(p, m, c.nodes[m].raft);
    }
  }

  lemma NetStays(p: P.Proto, p': P.Proto, net: set<Packet>)
    requires P.Extends(p, p') && forall x :: x in net ==> MessageOk(p, x.dst, x.msg)
    ensures forall x :: x in net ==> MessageOk(p', x.dst, x.msg)
  {
    hide MessageOk, P.Extends;
    forall x | x in net ensures MessageOk(p', x.dst, x.msg) { MessageStays(p, p', x.dst, x.msg); }
  }

  lemma DeliveriesStay(p: P.Proto, p': P.Proto, delivered: set<Delivery>)
    requires P.Extends(p, p') && forall x :: x in delivered ==> DeliveryOk(p, x.term, x.entry)
    ensures forall x :: x in delivered ==> DeliveryOk(p', x.term, x.entry)
  {
    hide DeliveryOk, P.Extends;
    forall x | x in delivered ensures DeliveryOk(p', x.term, x.entry) { DeliveryStays(p, p', x.term, x.entry); }
  }

  lemma MovedMembers(p: P.Proto, p': P.Proto, n: NodeId)
    requires P.Moved(p, p', n)
    ensures p'.members == p.members
  {
  }

  lemma EventSim(c: Cluster, p: P.Proto, n: NodeId, ev: Event, env: Env) returns (p': P.Proto)
    requires Sim(c, p) && Enabled(c, n, ev)
    ensures Sim(AfterEvent(c, n, ev, env), p') && P.Moved(p, p', n)
  {
    hide P.Inv, P.Moved, NodeOk, DiskRests, MessageOk, DeliveryOk, Process;
    var node := c.nodes[n];
    p' := ProcessOk(p, n, node, ev, env);
    MovedExtends(p, p', n);
    MovedMembers(p, p', n);
    var (node', e) := Process(node, ev, env);
    NodesStay(p, p', c, n, node');
    NetStays(p, p', c.net);
    DeliveriesStay(p, p', c.delivered);
    var c' := AfterEvent(c, n, ev, env);
    assert c'.nodes == c.(nodes := c.nodes[n := node']).nodes;
  }

  lemma RestartSim(c: Cluster, p: P.Proto, p': P.Proto, n: NodeId, d: Disk, node': Node)
    requires Sim(c, p) && n in c.nodes && Leaves(p, p', n, d) && Restarts(c.nodes[n], d, node')
    ensures Sim(c.(nodes := c.nodes[n := node']), p')
  {
    hide P.Inv, P.Moved, NodeOk, DiskRests, MessageOk, DeliveryOk, Restore, DiskFor;
    var s := c.nodes[n].raft;
    MovedExtends(p, p', n);
    MovedMembers(p, p', n);
    PeersStay(p, n, s);
    RestoreOk(p', n, s.peers, s.noopOnElect, d);
    NodesStay(p, p', c, n, node');
    NetStays(p, p', c.net);
    DeliveriesStay(p, p', c.delivered);
  }

  lemma PeersStay(p: P.Proto, n: NodeId, s: NodeState)
    requires NodeOk(p, n, s)
    ensures s.me == n && PeersOf(s.peers, p.members, n)
  {
  }

  lemma CrashSim(c: Cluster, c': Cluster, p: P.Proto, n: NodeId)
    requires Sim(c, p) && CrashStep(c, c', n)
    ensures Sim(c', p)
  {
    hide P.Inv, P.Moved, NodeOk, DiskRests, MessageOk, DeliveryOk, DiskFor, Restarts;
    var node' :| Restarts(c.nodes[n], c.nodes[n].disk, node') && c' == c.(nodes := c.nodes[n := node']);
    P.NothingMoves(p, n);
    assert n in p.full by { NodeRepresents(p, n, c.nodes[n].raft); }
    RestDiskFor(p, n, c.nodes[n].raft, c.nodes[n].disk);
    RestartSim(c, p, p, n, c.nodes[n].disk, node');
  }

  lemma TornSim(c: Cluster, c': Cluster, p: P.Proto, n: NodeId, ev: Event, env: Env) returns (p': P.Proto)
    requires Sim(c, p) && TornStep(c, c', n, ev, env)
    ensures Sim(c', p') && P.Moved(p, p', n)
  {
    hide P.Inv, P.Moved, NodeOk, DiskRests, MessageOk, DeliveryOk, DiskFor, Restarts, LeavesDisk;
    var d, node' :| LeavesDisk(c.nodes[n], ev, env, d) && Restarts(c.nodes[n], d, node') &&
                    c' == c.(nodes := c.nodes[n := node']);
    p' := TornOk(p, n, c.nodes[n], ev, env, d);
    RestartSim(c, p, p', n, d, node');
  }

  /** Every step of the cluster is followed by the protocol. */
  lemma NextSim(c: Cluster, c': Cluster, p: P.Proto) returns (p': P.Proto)
    requires Sim(c, p) && Next(c, c')
    ensures Sim(c', p') && P.Extends(p, p')
  {
    hide Sim, AfterEvent, CrashStep, TornStep, P.Moved, P.Extends;
    if n, ev, env :| Enabled(c, n, ev) && c' == AfterEvent(c, n, ev, env) {
      p' := EventSim(c, p, n, ev, env);
      MovedExtends(p, p', n);
    } else if n :| CrashStep(c, c', n) {
      CrashSim(c, c', p, n);
      p' := p;
      P.NothingMoves(p, n);
      MovedExtends(p, p', n);
    } else {
      var n, ev, env :| TornStep(c, c', n, ev, env);
      p' := TornSim(c, c', p, n, ev, env);
      MovedExtends(p, p', n);
    }
  }

  // ---------- runs ----------

  function Start(members: set<NodeId>): P.Proto {
    P.Proto(members, map n | n in members :: 0, map n | n in members :: [], map[], map[], map[], {})
  }

  lemma StartInv(members: set<NodeId>)
    ensures P.Inv(Start(members))
  {
  }

  lemma InitSim(c: Cluster)
    requires Init(c)
    ensures Sim(c, Start(c.nodes.Keys))
  {
    hide P.Inv, PeersOf;
    StartInv(c.nodes.Keys);
  }

  /** Every state of every run is tied to a state of the protocol, and later states to later ones. */
  lemma {:induction false} RunSim(trace: seq<Cluster>) returns (ps: seq<P.Proto>)
    requires Run(trace)
    ensures |ps| == |trace|
    ensures forall i :: 0 <= i < |trace| ==> Sim(trace[i], ps[i])
    ensures forall i :: 0 <= i < |trace| - 1 ==> P.Extends(ps[i], ps[i + 1])
    decreases |trace|
  {
    hide Sim, Next, Init, P.Extends;
    if |trace| == 1 {
      InitSim(trace[0]);
      ps := [Start(trace[0].nodes.Keys)];
    } else {
      var k := |trace| - 1;
      assert Run(trace[..k]) by {
        forall i | 0 <= i < k - 1
          ensures Next(trace[..k][i], trace[..k][i + 1])
        {
          assert Next(trace[i], trace[i + 1]);
        }
      }
      var qs := RunSim(trace[..k]);
      assert Sim(trace[k - 1], qs[k - 1]) by { assert trace[..k][k - 1] == trace[k - 1]; }
      var q := NextSim(trace[k - 1], trace[k - 1 + 1], qs[k - 1]);
      ps := qs + [q];
      forall i | 0 <= i < |trace| ensures Sim(trace[i], ps[i]) { if i < k { assert trace[..k][i] == trace[i]; } }
    }
  }
}
