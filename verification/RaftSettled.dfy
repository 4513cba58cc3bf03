/**
 A leader has always committed all it may: between events no index is left that a majority is known to hold
 together with an entry of the leader's term.
 */
module RaftSettled {
  import opened Basics
  import opened RaftTypes
  import opened RaftLog
  import opened RaftNode
  import opened RaftCluster
  import opened RaftSim
  import opened RaftCommit
  import opened RaftNext
  import opened RaftSafety
  import P = RaftProtocol

  /** The commit rule has nothing more to commit. */
  predicate Settled(s: NodeState) {
    s.role == Leader ==> Recompute(s) == s
  }

  /** What the commit rule looks at. */
  predicate SameView(s: NodeState, s': NodeState) {
    && s'.peers == s.peers && s'.matchIndex == s.matchIndex && s'.log == s.log
    && s'.commitIndex == s.commitIndex && s'.term == s.term && (s'.role == Leader ==> s.role == Leader)
  }

  lemma ViewSettles(s: NodeState, s': NodeState)
    requires Settled(s) && SameView(s, s')
    ensures Settled(s')
  {
    hide Sorted, TermAt;
    assert Replicated(s') == Replicated(s);
  }

  lemma RecomputeTwice(s: NodeState)
    ensures Settled(Recompute(s))
  {
    hide Sorted, TermAt;
    RecomputeSame(s);
    assert Replicated(Recompute(s)) == Replicated(s);
  }

  lemma HardView(s: NodeState)
    ensures SameView(s, PersistHard(s))
  {
  }

  // ---------- events ----------

  lemma DispatchSettles(s: NodeState, m: Message, progress: nat)
    requires Settled(s)
    ensures Settled(Dispatch(s, m, progress).state)
  {
    hide Recompute, ReplicateTo, Matched, AppendAt, HeartbeatTick, PersistHard, EntriesFrom, KeepsSuffix, Claim,
         TrackPeers, BackOff, Follow;
    match m
    case RequestVote(_, _, _, _) =>
      var v := s.(votedFor := Some(m.candidate));
      HardView(v);
      ViewSettles(s, PersistHard(v));
    case RequestVoteResp(_, _, _) =>
      RecomputeTwice(TrackPeers(Claim(s.(votes := s.votes + {m.voter}))));
    case AppendEntries(_, _, _, _, _, _) => FollowsOther(s, m.term, m.leader);
    case AppendEntriesResp(_, _, _, _) =>
      RecomputeTwice(NoteMatch(s, m.responder, m.matchIndex));
      BackOffView(s, m.responder, m.matchIndex);
      ViewSettles(s, BackOff(s, m.responder, m.matchIndex));
    case InstallSnapshot(_, _, _, _, _, _, _) => FollowsOther(s, m.term, m.leader);
    case InstallSnapshotResp(_, _, _, _, _) =>
      RecomputeTwice(NoteInstalled(s, m.responder, m.installedIndex));
      ViewSettles(s, s.(snapshotCursor := s.snapshotCursor[m.responder := m.nextOffset]));
  }

  lemma FollowsOther(s: NodeState, t: Term, leader: NodeId)
    ensures Follow(s, t, leader).role == Follower
  {
  }

  lemma BackOffView(s: NodeState, peer: NodeId, hint: LogIndex)
    ensures SameView(s, BackOff(s, peer, hint))
  {
  }

  lemma MessageSettles(s: NodeState, m: Message, progress: nat)
    requires Settled(s)
    ensures Settled(OnMessage(s, m, progress).state)
  {
    hide Dispatch, DrainFrom, Settled, PersistHard;
    if !Ignored(s, m) {
      var s1 := if s.term < m.term then StepDown(s, m.term) else s;
      assert Settled(s1) by { DownSettles(s, m.term); }
      DispatchSettles(s1, m, progress);
      var s2 := Dispatch(s1, m, progress).state;
      ViewSettles(s2, Drain(s2).state);
    }
  }

  lemma DownSettles(s: NodeState, t: Term)
    ensures Settled(StepDown(s, t))
  {
    hide PersistHard;
  }

  lemma TimeoutSettles(s: NodeState)
    requires Settled(s)
    ensures Settled(ElectionTimeout(s).state)
  {
    hide Recompute, HeartbeatTick, DrainFrom, Claim, TrackPeers, PersistHard;
    if s.role != Leader {
      var c := Campaign(s);
      HardView(s.(term := s.term + 1, role := Candidate, votedFor := Some(s.me), votes := {s.me}, leaderHint := None));
      RecomputeTwice(TrackPeers(Claim(c)));
      ViewSettles(BecomeLeader(c), Drain(BecomeLeader(c)).state);
    }
  }

  lemma ProposeSettles(s: NodeState, payload: seq<byte>)
    requires Settled(s)
    ensures Settled(Propose(s, payload).1.state)
  {
    hide Recompute, AppendLocal, DrainFrom;
    var s1 := Recompute(AppendLocal(s, payload));
    RecomputeTwice(AppendLocal(s, payload));
    ViewSettles(s1, Drain(s1).state);
  }

  /** Compaction goes up to what is applied, and the commit rule looks past it. */
  lemma SnapshotSettles(p: P.Proto, n: NodeId, s: NodeState, data: seq<byte>, through: Option<LogIndex>)
    requires NodeOk(p, n, s) && Settled(s) && TakeSnapshot(s, data, through).Some?
    ensures Settled(TakeSnapshot(s, data, through).value.0)
  {
    hide PeersOf, CommitKnown, LeaderOk, CandidateOk, VoteOk, Sorted, Represents, TermAt, LastIndex, CompactTo;
    var full, s' := p.full[n], TakeSnapshot(s, data, through).value.0;
    var cut := match through case Some(t) => Min(t, s.lastApplied) case None => s.lastApplied;
    RepresentsGet(s.log, full, cut);
    RepresentsCompact(s.log, full, cut, TermAt(s.log, cut).value);
    RepresentsEnd(s.log, full);
    RepresentsEnd(s'.log, full);
    assert Replicated(s') == Replicated(s);
    RepresentsGet(s.log, full, CommitCandidate(s));
    RepresentsGet(s'.log, full, CommitCandidate(s));
    CompactMoves(s.log, cut, TermAt(s.log, cut).value);
  }

  lemma CompactMoves(l: Log, cut: LogIndex, t: Term)
    requires l.baseIndex < cut
    ensures CompactTo(l, cut, t).baseIndex == cut
  {
  }

  lemma ReactSettles(p: P.Proto, n: NodeId, node: Node, ev: Event, env: Env)
    requires NodeOk(p, n, node.raft) && Settled(node.raft)
    ensures Settled(React(node, ev, env).raft)
  {
    hide NodeOk, OnMessage, ElectionTimeout, Propose, TakeSnapshot, HeartbeatTick, Settled;
    var s := node.raft;
    match ev
    case Receive(m) =>
      MessageSettles(s, m, 0);
      MessageSettles(s, m, env.progress);
    case Timeout => TimeoutSettles(s);
    case Tick =>
    case Submit(payload) => ProposeSettles(s, payload);
    case SnapshotRequest(data, through) =>
      if TakeSnapshot(s, data, through).Some? { SnapshotSettles(p, n, s, data, through); }
  }

  lemma {:induction false} PerformView(e: Effects, d: Disk, transfer: bool, env: Env, actions: seq<Action>)
    ensures SameView(e.raft, Perform(e, d, transfer, env, actions).raft)
    decreases |actions|
  {
    if actions != [] { PerformView(PerformOne(e, d, transfer, env, actions[0]), d, transfer, env, actions[1..]); }
  }

  lemma ProcessSettles(p: P.Proto, n: NodeId, node: Node, ev: Event, env: Env)
    requires NodeOk(p, n, node.raft) && Settled(node.raft)
    ensures Settled(Process(node, ev, env).0.raft)
  {
    hide NodeOk, React, Perform, Settled, SameView;
    var r := React(node, ev, env);
    ReactSettles(p, n, node, ev, env);
    var d := DiskAfter(node.disk, r.saved, if r.flush then r.raft.pending else []);
    var s := if r.flush then r.raft.(pending := []) else r.raft;
    assert SameView(r.raft, s) by { AsideView(r.raft); }
    ViewSettles(r.raft, s);
    PerformView(Effects(s, {}, []), d, node.transfer, env, r.actions);
    ViewSettles(s, Perform(Effects(s, {}, []), d, node.transfer, env, r.actions).raft);
  }

  lemma AsideView(s: NodeState)
    ensures SameView(s, s.(pending := [])) && SameView(s, s)
  {
  }

  lemma RestartSettles(node: Node, d: Disk, node': Node)
    requires Restarts(node, d, node')
    ensures Settled(node'.raft)
  {
  }

  // ---------- runs ----------

  ghost predicate AllSettled(c: Cluster) {
    forall n :: n in c.nodes ==> Settled(c.nodes[n].raft)
  }

  lemma NextSettles(c: Cluster, c': Cluster, p: P.Proto)
    requires Sim(c, p) && Next(c, c') && AllSettled(c)
    ensures AllSettled(c')
  {
    hide P.Inv, NodeOk, DiskRests, Process, MessageOk, DeliveryOk, Settled, LeavesDisk, Restarts;
    if n, ev, env :| Enabled(c, n, ev) && c' == AfterEvent(c, n, ev, env) {
      ProcessSettles(p, n, c.nodes[n], ev, env);
    } else if n :| CrashStep(c, c', n) {
      var node' :| Restarts(c.nodes[n], c.nodes[n].disk, node') && c' == c.(nodes := c.nodes[n := node']);
      RestartSettles(c.nodes[n], c.nodes[n].disk, node');
    } else {
      var n, ev, env :| TornStep(c, c', n, ev, env);
      var d, node' :| LeavesDisk(c.nodes[n], ev, env, d) && Restarts(c.nodes[n], d, node') &&
                      c' == c.(nodes := c.nodes[n := node']);
      RestartSettles(c.nodes[n], d, node');
    }
  }

  lemma {:induction false} RunSettled(trace: seq<Cluster>, i: nat)
    requires Run(trace) && i < |trace|
    ensures AllSettled(trace[i])
  {
    hide Sim, Next, AllSettled;
    if i == 0 {
      StartSettled(trace[0]);
    } else {
      RunSettled(trace, i - 1);
      var ps := RunSim(trace);
      assert Next(trace[i - 1], trace[i - 1 + 1]);
      NextSettles(trace[i - 1], trace[i], ps[i - 1]);
    }
  }

  lemma StartSettled(c: Cluster)
    requires Init(c)
    ensures AllSettled(c)
  {
  }

  /** In every run, what a majority is known to hold with an entry of the leader's term at its end is committed. */
  lemma NothingUncommitted(trace: seq<Cluster>, i: nat, n: NodeId, t: Term, d: nat)
    requires Run(trace) && i < |trace| && Leads(trace[i], n, t)
    requires var s := trace[i].nodes[n].raft; TermAt(s.log, d) == Some(t) && MajorityHolds(s, trace[i].nodes.Keys, d)
    ensures d <= trace[i].nodes[n].raft.commitIndex
  {
    hide Run, Sim, P.Inv, NodeOk, Recompute, TermAt, MajorityHolds;
    var ps := RunSim(trace);
    var p, s := ps[i], trace[i].nodes[n].raft;
    RunSettled(trace, i);
    assert P.Inv(p) && NodeOk(p, n, s) && p.members == trace[i].nodes.Keys by { SimFacts(trace[i], p, n); }
    if s.commitIndex < d { CommitsExactly(p, n, s, d); }
  }

  lemma SimFacts(c: Cluster, p: P.Proto, n: NodeId)
    requires Sim(c, p) && n in c.nodes
    ensures P.Inv(p) && NodeOk(p, n, c.nodes[n].raft) && p.members == c.nodes.Keys
  {
  }

  /** Once a majority is known to hold all of a leader's log, and its last entry is of its term, all is committed. */
  lemma AllCommitted(trace: seq<Cluster>, i: nat, n: NodeId, t: Term)
    requires Run(trace) && i < |trace| && Leads(trace[i], n, t)
    requires var s := trace[i].nodes[n].raft;
             TermAt(s.log, LastIndex(s.log)) == Some(t) && MajorityHolds(s, trace[i].nodes.Keys, LastIndex(s.log))
    ensures trace[i].nodes[n].raft.commitIndex == LastIndex(trace[i].nodes[n].raft.log)
  {
    hide Run, TermAt, MajorityHolds, LastIndex;
    NothingUncommitted(trace, i, n, t, LastIndex(trace[i].nodes[n].raft.log));
    ApplyOrder(trace, i, n);
  }
}
