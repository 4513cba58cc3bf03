/** What a node hands to its application: every committed entry once, in order, without gaps. */
module RaftApply {
  import opened Basics
  import opened RaftTypes
  import opened RaftLog
  import opened RaftNode
  import opened RaftCluster
  import opened RaftSim
  import opened RaftEvents
  import opened RaftNext
  import opened RaftSafety
  import P = RaftProtocol

  // ---------- the entries handed over ----------

  /** The entries of `l` with a payload at the indices past `from` up to `end`. */
  function Payloads(l: Log, from: LogIndex, end: LogIndex): seq<LogEntry>
    requires forall k: LogIndex :: from < k <= end ==> Get(l, k).Some?
    decreases end - from
  {
    if end <= from then []
    else (if Get(l, from + 1).value.payload == [] then [] else [Get(l, from + 1).value]) + Payloads(l, from + 1, end)
  }

  function Applied(actions: seq<Action>): seq<LogEntry> {
    if actions == [] then []
    else (if actions[0].Apply? then [actions[0].entry] else []) + Applied(actions[1..])
  }

  lemma {:induction false} AppliedConcat(a: seq<Action>, b: seq<Action>)
    ensures Applied(a + b) == Applied(a) + Applied(b)
    decreases |a|
  {
    if a == [] {
      assert a + b == b;
    } else {
      assert (a + b)[1..] == a[1..] + b;
      AppliedConcat(a[1..], b);
    }
  }

  predicate NoApply(actions: seq<Action>) {
    forall i :: 0 <= i < |actions| ==> !actions[i].Apply?
  }

  lemma {:induction false} AppliesNone(actions: seq<Action>)
    requires NoApply(actions)
    ensures Applied(actions) == []
    decreases |actions|
  {
    if actions != [] { AppliesNone(actions[1..]); }
  }

  lemma {:induction false} PerformApplies(e: Effects, d: Disk, transfer: bool, env: Env, actions: seq<Action>)
    ensures Perform(e, d, transfer, env, actions).applied == e.applied + Applied(actions)
    decreases |actions|
  {
    hide SnapshotMessage;
    if actions != [] { PerformApplies(PerformOne(e, d, transfer, env, actions[0]), d, transfer, env, actions[1..]); }
  }

  lemma {:induction false} DrainApplies(l: Log, from: LogIndex, end: LogIndex)
    requires forall k: LogIndex :: from < k <= end ==> Get(l, k).Some?
    ensures Applied(DrainFrom(l, from, end)) == Payloads(l, from, end)
    decreases end - from
  {
    hide Get;
    if from < end {
      DrainApplies(l, from + 1, end);
      var rest := DrainFrom(l, from + 1, end);
      var e := Get(l, from + 1).value;
      if e.payload != [] { assert ([Apply(e)] + rest)[1..] == rest; }
    }
  }

  // ---------- what the handlers leave alone ----------

  lemma DispatchAppliesNone(s: NodeState, m: Message, progress: nat)
    ensures NoApply(Dispatch(s, m, progress).actions)
  {
    hide BecomeLeader, Recompute, PersistHard, BuildAppend, AcceptEntries, InstallDone;
  }

  /** How far the application is, as a handler leaves it: moved only by an installed snapshot. */
  lemma DispatchApplied(s: NodeState, m: Message, progress: nat)
    requires s.log.baseIndex <= s.lastApplied
    ensures var s' := Dispatch(s, m, progress).state;
            s'.lastApplied == Max(s.lastApplied, s'.log.baseIndex) && s.commitIndex <= s'.commitIndex
  {
    hide CommitCandidate, TermAt, ReplicateTo, HeartbeatTick, BecomeLeader, Follow, PersistHard, Matched, AcceptEntries,
         InstallDone;
    match m
    case RequestVote(_, _, _, _) => HardApplied(s.(votedFor := Some(m.candidate)));
    case RequestVoteResp(_, _, _) => LeadApplied(s.(votes := s.votes + {m.voter}));
    case AppendEntries(_, _, _, _, _, _) =>
      FollowApplied(s, m.term, m.leader);
      AcceptApplied(Follow(s, m.term, m.leader), m);
    case AppendEntriesResp(_, _, _, _) =>
    case InstallSnapshot(_, _, _, _, _, _, _) =>
      FollowApplied(s, m.term, m.leader);
      InstallApplied(Follow(s, m.term, m.leader), m);
    case InstallSnapshotResp(_, _, _, _, _) =>
  }

  lemma HardApplied(s: NodeState)
    ensures var s' := PersistHard(s);
            s'.lastApplied == s.lastApplied && s'.commitIndex == s.commitIndex && s'.log == s.log
  {
  }

  lemma FollowApplied(s: NodeState, t: Term, leader: NodeId)
    ensures var s' := Follow(s, t, leader);
            s'.lastApplied == s.lastApplied && s'.commitIndex == s.commitIndex && s'.log == s.log
  {
  }

  lemma AcceptApplied(s: NodeState, m: Message)
    requires m.AppendEntries?
    ensures var r := AcceptEntries(s, m);
            r.Some? ==>
              r.value.lastApplied == s.lastApplied && r.value.log.baseIndex == s.log.baseIndex &&
              s.commitIndex <= r.value.commitIndex
  {
    hide AppendAt, EntriesFrom, Consistent;
    AppendKeepsBase(s.log, m.prevLogIndex + 1, m.entries, s.commitIndex);
  }

  lemma InstallApplied(s: NodeState, m: Message)
    requires m.InstallSnapshot? && s.log.baseIndex <= s.lastApplied
    ensures var s' := InstallDone(s, m);
            s'.lastApplied == Max(s.lastApplied, s'.log.baseIndex) && s.commitIndex <= s'.commitIndex
  {
    hide KeepsSuffix;
  }

  lemma LeadApplied(s: NodeState)
    ensures var l := BecomeLeader(s);
            l.lastApplied == s.lastApplied && l.log.baseIndex == s.log.baseIndex && s.commitIndex <= l.commitIndex
  {
    hide CommitCandidate, TermAt;
  }

  lemma StepDownApplied(s: NodeState, t: Term)
    ensures var s' := StepDown(s, t);
            s'.lastApplied == s.lastApplied && s'.commitIndex == s.commitIndex && s'.log == s.log
  {
  }

  // ---------- one event ----------

  /** The state in which an event leaves the node and the entries it hands over. */
  ghost predicate HandsOver(s: NodeState, s': NodeState, applied: seq<LogEntry>) {
    var from := Max(s.lastApplied, s'.log.baseIndex);
    && s.commitIndex <= s'.commitIndex && from <= s'.lastApplied
    && (s.lastApplied == s.commitIndex ==> s'.lastApplied == s'.commitIndex)
    && (forall k: LogIndex :: from < k <= s'.lastApplied ==> Get(s'.log, k).Some?)
    && applied == Payloads(s'.log, from, s'.lastApplied)
  }

  /** The committed entries past the base of the log are all there. */
  lemma HeldToCommit(p: P.Proto, n: NodeId, s: NodeState)
    requires NodeOk(p, n, s)
    ensures forall k: LogIndex :: s.log.baseIndex < k <= s.commitIndex ==> Get(s.log, k).Some?
    ensures s.log.baseIndex <= s.lastApplied <= s.commitIndex
  {
    hide Represents, PeersOf, CommitKnown, Get;
    forall k: LogIndex | s.log.baseIndex < k <= s.commitIndex ensures Get(s.log, k).Some? {
      RepresentsGet(s.log, p.full[n], k);
    }
  }

  /** Draining after a handler hands over exactly what the handler newly committed. */
  lemma DrainHands(s: NodeState, s1: NodeState)
    requires s1.lastApplied == Max(s.lastApplied, s1.log.baseIndex) && s.commitIndex <= s1.commitIndex
    requires s1.lastApplied <= s1.commitIndex
    requires forall k: LogIndex :: s1.log.baseIndex < k <= s1.commitIndex ==> Get(s1.log, k).Some?
    ensures HandsOver(s, Drain(s1).state, Applied(Drain(s1).actions))
  {
    hide Get;
    DrainApplies(s1.log, s1.lastApplied, s1.commitIndex);
  }

  lemma StaysHands(s: NodeState, s': NodeState)
    requires s'.lastApplied == s.lastApplied && s'.commitIndex == s.commitIndex && s'.log.baseIndex <= s'.lastApplied
    ensures HandsOver(s, s', [])
  {
  }

  lemma MessageHands(p: P.Proto, n: NodeId, s: NodeState, m: Message, progress: nat)
    requires P.Inv(p) && NodeOk(p, n, s) && MessageOk(p, n, m)
    ensures var r := OnMessage(s, m, progress); HandsOver(s, r.state, Applied(r.actions))
  {
    hide P.Inv, P.Moved, NodeOk, MessageOk, Dispatch, StepDown, HandsOver, Drain;
    HeldToCommit(p, n, s);
    if Ignored(s, m) {
      StaysHands(s, s);
    } else {
      var newer := s.term < m.term;
      var s1 := if newer then StepDown(s, m.term) else s;
      StepDownApplied(s, m.term);
      var r := Dispatch(s1, m, progress);
      DispatchApplied(s1, m, progress);
      DispatchAppliesNone(s1, m, progress);
      var acts := if newer && ResetElectionTimer !in r.actions then [ResetElectionTimer] + r.actions else r.actions;
      AppliesNone(acts);
      AppliedConcat(acts, Drain(r.state).actions);
      assert [] + Applied(Drain(r.state).actions) == Applied(Drain(r.state).actions);
      DispatchHeld(p, n, s, m, progress);
      DrainHands(s, r.state);
    }
  }

  lemma DispatchHeld(p: P.Proto, n: NodeId, s: NodeState, m: Message, progress: nat)
    requires P.Inv(p) && NodeOk(p, n, s) && MessageOk(p, n, m) && !Ignored(s, m)
    ensures var s1 := Dispatch(if s.term < m.term then StepDown(s, m.term) else s, m, progress).state;
            && s1.lastApplied <= s1.commitIndex
            && forall k: LogIndex :: s1.log.baseIndex < k <= s1.commitIndex ==> Get(s1.log, k).Some?
  {
    hide P.Inv, P.Moved, NodeOk, MessageOk, Dispatch, StepDown, Get;
    var p' := OnMessageOk(p, n, s, m, progress);
    HeldToCommit(p', n, OnMessage(s, m, progress).state);
  }

  lemma TimeoutHands(p: P.Proto, n: NodeId, s: NodeState)
    requires P.Inv(p) && NodeOk(p, n, s)
    ensures var r := ElectionTimeout(s); HandsOver(s, r.state, Applied(r.actions))
  {
    hide P.Inv, P.Moved, NodeOk, HandsOver, BecomeLeader, HeartbeatTick, PersistHard, Get, LastIndex, LastTerm, Drain;
    HeldToCommit(p, n, s);
    if s.role == Leader {
      StaysHands(s, s);
    } else {
      var c := Campaign(s);
      CampaignApplied(s);
      if s.peers == [] {
        var l := BecomeLeader(c);
        LeadApplied(c);
        var p' := TimeoutOk(p, n, s);
        DrainSame(l);
        HeldToCommit(p', n, Drain(l).state);
        HeartbeatAppliesNone(l);
        AppliesNone(HeartbeatTick(l));
        AppliedConcat(HeartbeatTick(l), Drain(l).actions);
        assert [] + Applied(Drain(l).actions) == Applied(Drain(l).actions);
        DrainHands(s, l);
      } else {
        AppliesNone([ResetElectionTimer, Broadcast(RequestVote(c.term, c.me, LastIndex(c.log), LastTerm(c.log)))]);
        StaysHands(s, c);
      }
    }
  }

  lemma CampaignApplied(s: NodeState)
    ensures var c := Campaign(s); c.lastApplied == s.lastApplied && c.commitIndex == s.commitIndex && c.log == s.log
  {
  }

  lemma DrainSame(s: NodeState)
    ensures Drain(s).state.log == s.log && Drain(s).state.commitIndex == s.commitIndex &&
            s.lastApplied <= Drain(s).state.lastApplied
  {
  }

  lemma HeartbeatAppliesNone(s: NodeState)
    ensures NoApply(HeartbeatTick(s))
  {
    hide BuildAppend;
  }

  lemma SubmitHands(p: P.Proto, n: NodeId, s: NodeState, payload: seq<byte>)
    requires P.Inv(p) && NodeOk(p, n, s)
    ensures var (o, r) := Propose(s, payload);
            HandsOver(s, r.state, Applied(r.actions + if o.Accepted? then HeartbeatTick(r.state) else []))
  {
    hide P.Inv, P.Moved, NodeOk, HandsOver, HeartbeatTick, Get, CommitCandidate, TermAt, Drain;
    HeldToCommit(p, n, s);
    if s.role != Leader {
      StaysHands(s, s);
    } else {
      var s1 := Recompute(AppendLocal(s, payload));
      var r := Drain(s1);
      var p' := ProposeOk(p, n, s, payload);
      DrainSame(s1);
      HeldToCommit(p', n, r.state);
      HeartbeatAppliesNone(r.state);
      AppliesNone(HeartbeatTick(r.state));
      AppliedConcat(r.actions, HeartbeatTick(r.state));
      assert Applied(r.actions) + [] == Applied(r.actions);
      DrainHands(s, s1);
    }
  }

  lemma ReactHands(p: P.Proto, n: NodeId, node: Node, ev: Event, env: Env)
    requires P.Inv(p) && NodeOk(p, n, node.raft) && (ev.Receive? ==> MessageOk(p, n, ev.msg))
    ensures var r := React(node, ev, env); HandsOver(node.raft, r.raft, Applied(r.actions))
  {
    hide P.Inv, NodeOk, MessageOk, OnMessage, ElectionTimeout, Propose, TakeSnapshot, HeartbeatTick, HandsOver;
    var s := node.raft;
    HeldToCommit(p, n, s);
    StaysHands(s, s);
    match ev
    case Receive(m) =>
      if m.InstallSnapshot? {
        AppliesNone([SendTo(m.leader, InstallSnapshotResp(s.term, false, s.me, env.progress, 0))]);
      }
      MessageHands(p, n, s, m, if m.InstallSnapshot? && s.term <= m.term && node.transfer then env.progress else 0);
    case Timeout => TimeoutHands(p, n, s);
    case Tick =>
      HeartbeatAppliesNone(s);
      AppliesNone(HeartbeatTick(s));
    case Submit(payload) => SubmitHands(p, n, s, payload);
    case SnapshotRequest(data, through) => SnapshotHands(p, n, s, data, through);
  }

  lemma SnapshotHands(p: P.Proto, n: NodeId, s: NodeState, data: seq<byte>, through: Option<LogIndex>)
    requires NodeOk(p, n, s)
    ensures var r := TakeSnapshot(s, data, through); r.Some? ==> HandsOver(s, r.value.0, [])
  {
    hide NodeOk, TermAt, Get, HandsOver;
    HeldToCommit(p, n, s);
    var r := TakeSnapshot(s, data, through);
    if r.Some? { StaysHands(s, r.value.0); }
  }

  /**
   In every run, an event at a node moves its commit index forward, if at all, and hands to the
   application exactly the non-empty entries between what was applied before (or the base of a
   snapshot it installed) and what is applied now, in index order, each of them present in the log.
   */
  lemma EventHandsOver(trace: seq<Cluster>, i: nat, n: NodeId, ev: Event, env: Env)
    requires Run(trace) && i < |trace| && Enabled(trace[i], n, ev)
    ensures var node := trace[i].nodes[n]; var (node', e) := Process(node, ev, env);
            HandsOver(node.raft, node'.raft, e.applied)
  {
    hide Run, P.Inv, P.Extends, NodeOk, MessageOk, DiskRests, DeliveryOk, React, DiskAfter, Perform, HandsOver;
    var p, q := TwoMoments(trace, i, i);
    var node := trace[i].nodes[n];
    ReactHands(p, n, node, ev, env);
    var r := React(node, ev, env);
    var s, d := RaftAfter(r), DiskAfterReact(node, r);
    PerformApplies(Effects(s, {}, []), d, node.transfer, env, r.actions);
    var p' := ProcessOk(p, n, node, ev, env);
    var e := Perform(Effects(s, {}, []), d, node.transfer, env, r.actions);
    assert [] + Applied(r.actions) == Applied(r.actions);
    PerformSame(Effects(s, {}, []), d, node.transfer, env, r.actions);
    HandsSame(node.raft, r.raft, e.raft, e.applied);
  }

  lemma {:induction false} PerformSame(e: Effects, d: Disk, transfer: bool, env: Env, actions: seq<Action>)
    ensures SameButNext(e.raft, Perform(e, d, transfer, env, actions).raft)
    decreases |actions|
  {
    hide SnapshotMessage;
    if actions != [] { PerformSame(PerformOne(e, d, transfer, env, actions[0]), d, transfer, env, actions[1..]); }
  }

  lemma HandsSame(s: NodeState, s1: NodeState, s2: NodeState, applied: seq<LogEntry>)
    requires HandsOver(s, s1, applied) && s2.log == s1.log && s2.commitIndex == s1.commitIndex &&
             s2.lastApplied == s1.lastApplied
    ensures HandsOver(s, s2, applied)
  {
  }

  // ---------- nothing committed waits ----------

  ghost predicate AllApplied(c: Cluster) {
    forall n :: n in c.nodes ==> c.nodes[n].raft.lastApplied == c.nodes[n].raft.commitIndex
  }

  lemma RestartApplied(node: Node, d: Disk, node': Node)
    requires Restarts(node, d, node')
    ensures node'.raft.lastApplied == node'.raft.commitIndex
  {
  }

  /** Between events, everything a node knows to be committed has been handed to its application. */
  lemma {:induction false} NothingWaits(trace: seq<Cluster>, i: nat)
    requires Run(trace) && i < |trace|
    ensures AllApplied(trace[i])
  {
    hide Restarts, Process, LeavesDisk, HandsOver;
    if i > 0 {
      NothingWaits(trace, i - 1);
      var c, c' := trace[i - 1], trace[i];
      assert Next(trace[i - 1], trace[i - 1 + 1]);
      if n, ev, env :| Enabled(c, n, ev) && c' == AfterEvent(c, n, ev, env) {
        EventHandsOver(trace, i - 1, n, ev, env);
        HandsAll(c.nodes[n].raft, Process(c.nodes[n], ev, env).0.raft, Process(c.nodes[n], ev, env).1.applied);
      } else if n :| CrashStep(c, c', n) {
        var node' :| Restarts(c.nodes[n], c.nodes[n].disk, node') && c' == c.(nodes := c.nodes[n := node']);
        RestartApplied(c.nodes[n], c.nodes[n].disk, node');
      } else {
        var n, ev, env :| TornStep(c, c', n, ev, env);
        var d, node' :| LeavesDisk(c.nodes[n], ev, env, d) && Restarts(c.nodes[n], d, node') &&
                        c' == c.(nodes := c.nodes[n := node']);
        RestartApplied(c.nodes[n], d, node');
      }
    }
  }

  lemma HandsAll(s: NodeState, s': NodeState, applied: seq<LogEntry>)
    requires HandsOver(s, s', applied) && s.lastApplied == s.commitIndex
    ensures s'.lastApplied == s'.commitIndex
  {
  }
}
