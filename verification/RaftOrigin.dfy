/**
 Where the entries of a node's log come from: each was in a leader's log before, except for the one a leader
 appends in the event itself, also when the event is cut short by a crash.
 */
module RaftOrigin {
  import opened Basics
  import opened RaftTypes
  import opened RaftLog
  import opened RaftNode
  import opened RaftCluster
  import opened RaftSim
  import opened RaftSteps
  import opened RaftRestart
  import opened RaftTorn
  import opened RaftNext
  import P = RaftProtocol

  /** The entry stands in the log of the leader of its term. */
  ghost predicate Old(p: P.Proto, e: LogEntry) {
    0 < e.index && P.Known(p, e.index, e.term) && p.logs[e.term][e.index - 1] == e
  }

  /** The entry a leader appends for a proposal. */
  predicate Added(s: NodeState, ev: Event, e: LogEntry) {
    ev.Submit? && s.role == Leader && e == LogEntry(s.term, LastIndex(s.log) + 1, ev.payload)
  }

  ghost predicate Origin(p: P.Proto, s: NodeState, ev: Event, e: LogEntry) {
    Old(p, e) || e.payload == [] || Added(s, ev, e)
  }

  // ---------- what an event does to the log ----------

  /** The log is as it was, lost a first part, or gained one entry. */
  ghost predicate Grown(s: NodeState, l: Log, ev: Event) {
    forall e :: e in l.entries ==> e in s.log.entries || e.payload == [] || Added(s, ev, e)
  }

  lemma LeadLog(s: NodeState)
    ensures forall e :: e in BecomeLeader(s).log.entries ==> e in s.log.entries || e.payload == []
  {
    RecomputeSame(TrackPeers(Claim(s)));
  }

  /** A message changes the log only like an election does, or if it is the leader's of the node's term. */
  lemma MessageLog(s: NodeState, m: Message, progress: nat)
    ensures var f := OnMessage(s, m, progress).state;
            || (forall e :: e in f.log.entries ==> e in s.log.entries || e.payload == [])
            || ((m.AppendEntries? || m.InstallSnapshot?) && f.term == m.term)
  {
    hide Dispatch, StepDown, Drain;
    if !Ignored(s, m) {
      var s1 := if s.term < m.term then StepDown(s, m.term) else s;
      StepDownShapes(s, m.term);
      DispatchLog(s1, m, progress);
      DrainSame(Dispatch(s1, m, progress).state);
    }
  }

  lemma DrainSame(s: NodeState)
    ensures Drain(s).state.log == s.log && Drain(s).state.term == s.term
  {
  }

  lemma DispatchLog(s: NodeState, m: Message, progress: nat)
    requires m.term <= s.term
    ensures var f := Dispatch(s, m, progress).state;
            || (forall e :: e in f.log.entries ==> e in s.log.entries || e.payload == [])
            || ((m.AppendEntries? || m.InstallSnapshot?) && f.term == m.term)
  {
    hide CommitCandidate, ReplicateTo, Matched, AppendAt, HeartbeatTick, BecomeLeader, PersistHard, EntriesFrom,
         KeepsSuffix, CompactTo;
    match m
    case RequestVote(_, _, _, _) => HardKeepsLog(s.(votedFor := Some(m.candidate)));
    case RequestVoteResp(_, _, _) => LeadLog(s.(votes := s.votes + {m.voter}));
    case AppendEntries(_, _, _, _, _, _) => FollowTerm(s, m.term, m.leader);
    case AppendEntriesResp(_, _, _, _) =>
    case InstallSnapshot(_, _, _, _, _, _, _) => FollowTerm(s, m.term, m.leader);
    case InstallSnapshotResp(_, _, _, _, _) =>
  }

  lemma FollowTerm(s: NodeState, t: Term, leader: NodeId)
    requires t <= s.term
    ensures t == s.term ==> Follow(s, t, leader).term == t
  {
  }

  lemma TimeoutLog(s: NodeState)
    ensures forall e :: e in ElectionTimeout(s).state.log.entries ==> e in s.log.entries || e.payload == []
  {
    hide BecomeLeader, HeartbeatTick, PersistHard, Drain;
    var c := Campaign(s);
    HardKeepsLog(s.(term := s.term + 1, role := Candidate, votedFor := Some(s.me), votes := {s.me},
                    leaderHint := None));
    LeadLog(c);
    DrainSame(BecomeLeader(c));
  }

  lemma SubmitLog(s: NodeState, payload: seq<byte>)
    ensures Grown(s, Propose(s, payload).1.state.log, Submit(payload))
  {
    hide Recompute, Drain;
    RecomputeSame(AppendLocal(s, payload));
    DrainSame(Recompute(AppendLocal(s, payload)));
  }

  lemma SnapshotLog(s: NodeState, data: seq<byte>, through: Option<LogIndex>)
    ensures TakeSnapshot(s, data, through).Some? ==>
              forall e :: e in TakeSnapshot(s, data, through).value.0.log.entries ==> e in s.log.entries
  {
    hide TermAt;
  }

  lemma ReactLog(node: Node, ev: Event, env: Env)
    ensures var r := React(node, ev, env);
            || Grown(node.raft, r.raft.log, ev)
            || (ev.Receive? && (ev.msg.AppendEntries? || ev.msg.InstallSnapshot?) && r.raft.term == ev.msg.term)
  {
    hide OnMessage, ElectionTimeout, Propose, TakeSnapshot, HeartbeatTick;
    var s := node.raft;
    match ev
    case Receive(m) =>
      MessageLog(s, m, 0);
      MessageLog(s, m, env.progress);
    case Timeout => TimeoutLog(s);
    case Tick =>
    case Submit(payload) => SubmitLog(s, payload);
    case SnapshotRequest(data, through) => SnapshotLog(s, data, through);
  }

  // ---------- seen from the protocol ----------

  /** What a tied node holds, it holds with its leader. */
  lemma HeldOld(p: P.Proto, n: NodeId, s: NodeState, e: LogEntry)
    requires P.Inv(p) && NodeOk(p, n, s) && e in s.log.entries
    ensures Old(p, e)
  {
    hide PeersOf, CommitKnown, LeaderOk, CandidateOk, VoteOk, P.Inv, P.Known;
    var i :| 0 <= i < |s.log.entries| && s.log.entries[i] == e;
    FullFacts(p, n);
    TracedOld(p, p.full[n], s.log.baseIndex + i);
  }

  lemma TracedOld(p: P.Proto, l: seq<LogEntry>, k: nat)
    requires P.Traced(p, l) && k < |l|
    ensures Old(p, l[k]) && l[k].index == k + 1
  {
    P.AgreeAt(l, p.logs[l[k].term], k + 1, k);
  }

  /** Without a write in between, what is old later was old before. */
  lemma WasOld(p: P.Proto, p': P.Proto, n: NodeId, e: LogEntry)
    requires P.Moved(p, p', n) && Old(p', e)
    ensures Old(p, e) || (n in p'.term && e.term == p'.term[n] && e.term in p'.leaders && p'.leaders[e.term] == n)
  {
  }

  /** Every entry in a node's log after an event was in a leader's log before, is empty, or was proposed in it. */
  lemma EventOrigin(p: P.Proto, n: NodeId, node: Node, ev: Event, env: Env, e: LogEntry)
    requires P.Inv(p) && NodeOk(p, n, node.raft) && (ev.Receive? ==> MessageOk(p, n, ev.msg))
    requires e in React(node, ev, env).raft.log.entries
    ensures Origin(p, node.raft, ev, e)
  {
    hide P.Inv, P.Moved, NodeOk, React, MessageOk, Old, Added;
    ReactLog(node, ev, env);
    if Grown(node.raft, React(node, ev, env).raft.log, ev) {
      if e in node.raft.log.entries { HeldOld(p, n, node.raft, e); }
    } else {
      var p' := ReactFollows(p, n, node, ev, env);
      HeldOld(p', n, React(node, ev, env).raft, e);
      WasOld(p, p', n, e);
      NotLeader(p, p', n, React(node, ev, env).raft, ev.msg);
    }
  }

  /** A node that follows another in its term does not lead it. */
  lemma NotLeader(p: P.Proto, p': P.Proto, n: NodeId, s: NodeState, m: Message)
    requires P.Moved(p, p', n) && NodeOk(p', n, s) && MessageOk(p, n, m)
    requires (m.AppendEntries? || m.InstallSnapshot?) && s.term == m.term
    ensures n in p'.term && p'.term[n] in p'.leaders && p'.leaders[p'.term[n]] != n
  {
  }

  // ---------- what a crash leaves ----------

  /** What the recorded operations append is in the log. */
  ghost predicate AppendsHeld(ops: seq<PersistOp>, l: Log) {
    forall i, e :: 0 <= i < |ops| && ops[i].Append? && e in ops[i].entries ==> e in l.entries
  }

  lemma {:induction false} AfterOps(d: Disk, ops: seq<PersistOp>, l: Log, e: LogEntry)
    requires AppendsHeld(ops, l) && e in ApplyOps(d, ops).log
    ensures e in d.log || e in l.entries
    decreases |ops|
  {
    if ops != [] {
      var d1 := ApplyOp(d, ops[0]);
      assert AppendsHeld(ops[1..], l) by {
        forall i, x | 0 <= i < |ops[1..]| && ops[1..][i].Append? && x in ops[1..][i].entries ensures x in l.entries {
          assert ops[i + 1].Append? && x in ops[i + 1].entries;
        }
      }
      AfterOps(d1, ops[1..], l, e);
      if e in d1.log { AfterOp(d, ops[0], e); }
    }
  }

  lemma AfterOp(d: Disk, op: PersistOp, e: LogEntry)
    requires e in ApplyOp(d, op).log
    ensures e in d.log || (op.Append? && e in op.entries)
  {
    match op
    case HardState(_, _) =>
    case Append(es) =>
    case TruncateFrom(f) => BelowIn(d.log, f, e);
    case CompactThrough(t) => AboveIn(d.log, t, e);
  }

  lemma {:induction false} BelowIn(es: seq<LogEntry>, f: LogIndex, e: LogEntry)
    requires e in Below(es, f)
    ensures e in es
  {
    if !(e == es[0]) { BelowIn(es[1..], f, e); }
  }

  lemma {:induction false} AboveIn(es: seq<LogEntry>, t: LogIndex, e: LogEntry)
    requires e in Above(es, t)
    ensures e in es
  {
    if !(e == es[0]) { AboveIn(es[1..], t, e); }
  }

  lemma {:induction false} AboveHas(es: seq<LogEntry>, t: LogIndex, e: LogEntry)
    requires e in es && t < e.index
    ensures e in Above(es, t)
  {
    if e != es[0] { AboveHas(es[1..], t, e); }
  }

  lemma NoneHeld(ops: seq<PersistOp>, l: Log)
    requires NoAppend(ops)
    ensures AppendsHeld(ops, l)
  {
  }

  lemma LocalAppends(s: NodeState, payload: seq<byte>)
    requires NoAppend(s.pending)
    ensures AppendsHeld(AppendLocal(s, payload).pending, AppendLocal(s, payload).log)
  {
  }

  lemma LeadAppends(s: NodeState)
    requires NoAppend(s.pending)
    ensures AppendsHeld(BecomeLeader(s).pending, BecomeLeader(s).log)
  {
    hide AppendLocal;
    RecomputeSame(TrackPeers(Claim(s)));
    var s1 := s.(role := Leader, leaderHint := Some(s.me), matchIndex := map[], nextIndex := map[],
                 snapshotCursor := map[]);
    LocalAppends(s1, []);
  }

  lemma AcceptAppends(s: NodeState, m: Message)
    requires m.AppendEntries? && NoAppend(s.pending) && AcceptEntries(s, m).Some?
    ensures AppendsHeld(AcceptEntries(s, m).value.pending, AcceptEntries(s, m).value.log)
  {
    hide AppendAt, Consistent;
  }

  lemma FollowAppendless(s: NodeState, t: Term, leader: NodeId)
    requires NoAppend(s.pending)
    ensures NoAppend(Follow(s, t, leader).pending)
  {
    hide PersistHard;
    HardAppendless(s.(term := t, votedFor := None));
  }

  lemma DispatchAppends(s: NodeState, m: Message, progress: nat)
    requires NoAppend(s.pending)
    ensures var f := Dispatch(s, m, progress).state; AppendsHeld(f.pending, f.log)
  {
    hide CommitCandidate, ReplicateTo, Matched, AcceptEntries, HeartbeatTick, BecomeLeader, PersistHard, Follow,
         KeepsSuffix, CompactTo, AppendsHeld, NoAppend, Recompute;
    NoneHeld(s.pending, s.log);
    match m
    case RequestVote(_, _, _, _) =>
      var v := s.(votedFor := Some(m.candidate));
      HardAppendless(v);
      NoneHeld(PersistHard(v).pending, PersistHard(v).log);
    case RequestVoteResp(_, _, _) => LeadAppends(s.(votes := s.votes + {m.voter}));
    case AppendEntries(_, _, _, _, _, _) =>
      var s1 := Follow(s, m.term, m.leader);
      FollowAppendless(s, m.term, m.leader);
      NoneHeld(s1.pending, s1.log);
      if AcceptEntries(s1, m).Some? { AcceptAppends(s1, m); }
    case AppendEntriesResp(_, _, _, _) => RecomputeSame(NoteMatch(s, m.responder, m.matchIndex));
    case InstallSnapshot(_, _, _, _, _, _, _) =>
      FollowAppendless(s, m.term, m.leader);
      InstallAppends(Follow(s, m.term, m.leader), m);
    case InstallSnapshotResp(_, _, _, _, _) => RecomputeSame(NoteInstalled(s, m.responder, m.installedIndex));
  }

  lemma InstallAppends(s: NodeState, m: Message)
    requires m.InstallSnapshot? && NoAppend(s.pending)
    ensures AppendsHeld(s.pending, s.log) && AppendsHeld(InstallDone(s, m).pending, InstallDone(s, m).log)
  {
    hide KeepsSuffix, Install;
  }

  lemma MessageAppends(s: NodeState, m: Message, progress: nat)
    requires NoAppend(s.pending)
    ensures var f := OnMessage(s, m, progress).state; AppendsHeld(f.pending, f.log)
  {
    hide Dispatch, StepDown, AppendsHeld, NoAppend;
    if Ignored(s, m) {
      NoneHeld(s.pending, s.log);
    } else {
      var s1 := if s.term < m.term then StepDown(s, m.term) else s;
      StepDownAppendless(s, m.term);
      DispatchAppends(s1, m, progress);
    }
  }

  lemma TimeoutAppends(s: NodeState)
    requires NoAppend(s.pending)
    ensures var f := ElectionTimeout(s).state; AppendsHeld(f.pending, f.log)
  {
    hide BecomeLeader, HeartbeatTick, PersistHard, AppendsHeld, NoAppend;
    NoneHeld(s.pending, s.log);
    var c := s.(term := s.term + 1, role := Candidate, votedFor := Some(s.me), votes := {s.me}, leaderHint := None);
    HardAppendless(c);
    NoneHeld(PersistHard(c).pending, PersistHard(c).log);
    LeadAppends(PersistHard(c));
  }

  lemma SubmitAppends(s: NodeState, payload: seq<byte>)
    requires NoAppend(s.pending)
    ensures var f := Propose(s, payload).1.state; AppendsHeld(f.pending, f.log)
  {
    hide Recompute, AppendLocal, AppendsHeld, NoAppend;
    NoneHeld(s.pending, s.log);
    LocalAppends(s, payload);
    RecomputeSame(AppendLocal(s, payload));
  }

  lemma ReactAppends(node: Node, ev: Event, env: Env)
    requires NoAppend(node.raft.pending)
    ensures var r := React(node, ev, env).raft; AppendsHeld(r.pending, r.log)
  {
    hide OnMessage, ElectionTimeout, Propose, HeartbeatTick, AppendsHeld, NoAppend, CompactTo, TermAt;
    var s := node.raft;
    NoneHeld(s.pending, s.log);
    match ev
    case Receive(m) =>
      MessageAppends(s, m, 0);
      MessageAppends(s, m, env.progress);
    case Timeout => TimeoutAppends(s);
    case Tick =>
    case Submit(payload) => SubmitAppends(s, payload);
    case SnapshotRequest(data, through) => SnapshotAppends(s, data, through);
  }

  lemma SnapshotAppends(s: NodeState, data: seq<byte>, through: Option<LogIndex>)
    requires NoAppend(s.pending)
    ensures TakeSnapshot(s, data, through).Some? ==>
              var f := TakeSnapshot(s, data, through).value.0; AppendsHeld(f.pending, f.log)
  {
    hide TermAt, CompactTo;
  }

  lemma TornHeld(ops: seq<PersistOp>, k: nat, m: nat, l: Log)
    requires AppendsHeld(ops, l) && k <= |ops|
    ensures AppendsHeld(Torn(ops, k, m), l)
  {
    forall i, e | 0 <= i < |Torn(ops, k, m)| && Torn(ops, k, m)[i].Append? && e in Torn(ops, k, m)[i].entries
      ensures e in l.entries
    {
      assert ops[i].Append? && e in ops[i].entries;
    }
  }

  lemma RestoredIn(me: NodeId, peers: seq<NodeId>, noop: bool, d: Disk, e: LogEntry)
    requires Restore(me, peers, noop, d).Some? && e in Restore(me, peers, noop, d).value.log.entries
    ensures e in d.log
  {
  }

  /**
   Whatever a crash leaves of an event: past the node's snapshot, the restarted log has entries of no other
   origin.
   */
  lemma TornOrigin(p: P.Proto, n: NodeId, node: Node, ev: Event, env: Env, d: Disk, e: LogEntry)
    requires Resting(p, n, node.raft, node.disk) && (ev.Receive? ==> MessageOk(p, n, ev.msg)) &&
             LeavesDisk(node, ev, env, d)
    requires e in d.log && node.raft.log.baseIndex < e.index
    ensures Origin(p, node.raft, ev, e)
  {
    hide P.Inv, NodeOk, React, MessageOk, Origin, Torn, ApplyOps, AppendsHeld, Above, SnapshotRests, SavedSafely;
    var r := React(node, ev, env);
    var k: nat, m: nat :| k <= |r.raft.pending| && d == DiskAfter(node.disk, r.saved, Torn(r.raft.pending, k, m));
    assert NoAppend(node.raft.pending) by { RestingShape(p, n, node.raft, node.disk); }
    ReactAppends(node, ev, env);
    TornHeld(r.raft.pending, k, m, r.raft.log);
    var d0 := if r.saved.Some? then node.disk.(snapshot := r.saved) else node.disk;
    AfterOps(d0, Torn(r.raft.pending, k, m), r.raft.log, e);
    if e in r.raft.log.entries {
      EventOrigin(p, n, node, ev, env, e);
    } else {
      DiskHeld(node.raft, node.disk, e);
      HeldOld(p, n, node.raft, e);
      assert Origin(p, node.raft, ev, e) by { OldOrigin(p, node.raft, ev, e); }
    }
  }

  lemma OldOrigin(p: P.Proto, s: NodeState, ev: Event, e: LogEntry)
    requires Old(p, e)
    ensures Origin(p, s, ev, e)
  {
  }

  lemma DiskHeld(s: NodeState, d: Disk, e: LogEntry)
    requires DiskRests(s, d) && e in d.log && s.log.baseIndex < e.index
    ensures e in s.log.entries
  {
    hide SnapshotRests, Above;
    AboveHas(d.log, s.log.baseIndex, e);
  }
}
