/**
 What is on disk. Replaying the operations a node recorded gives exactly its term, vote and entries;
 a restart rebuilds the same log, also when the crash came between saving a snapshot and compacting.
 */
module RaftDurable {
  import opened Basics
  import opened RaftTypes
  import opened RaftLog
  import opened RaftNode
  import opened RaftCluster

  // ---------- replaying operations ----------

  lemma {:induction false} ReplayConcat(d: Disk, a: seq<PersistOp>, b: seq<PersistOp>)
    ensures ApplyOps(d, a + b) == ApplyOps(ApplyOps(d, a), b)
    decreases |a|
  {
    if a == [] {
      assert a + b == b;
    } else {
      assert (a + b)[1..] == a[1..] + b;
      ReplayConcat(ApplyOp(d, a[0]), a[1..], b);
    }
  }

  lemma ReplayPush(d: Disk, ops: seq<PersistOp>, op: PersistOp)
    ensures ApplyOps(d, ops + [op]) == ApplyOp(ApplyOps(d, ops), op)
  {
    ReplayConcat(d, ops, [op]);
    assert [op][1..] == [];
  }

  lemma {:induction false} ReplaySnapshot(d: Disk, ops: seq<PersistOp>)
    ensures ApplyOps(d, ops).snapshot == d.snapshot
    decreases |ops|
  {
    if ops != [] { ReplaySnapshot(ApplyOp(d, ops[0]), ops[1..]); }
  }

  /** Dropping superseded hard states changes only the term and vote reached. */
  lemma {:induction false} ReplayWithoutHard(d: Disk, e: Disk, ops: seq<PersistOp>)
    requires d.log == e.log
    ensures ApplyOps(d, WithoutHardState(ops)).log == ApplyOps(e, ops).log
    decreases |ops|
  {
    if ops != [] {
      var rest := WithoutHardState(ops[1..]);
      if ops[0].HardState? {
        assert WithoutHardState(ops) == rest;
        ReplayWithoutHard(d, ApplyOp(e, ops[0]), ops[1..]);
      } else {
        assert WithoutHardState(ops)[1..] == rest;
        ReplayWithoutHard(ApplyOp(d, ops[0]), ApplyOp(e, ops[0]), ops[1..]);
      }
    }
  }

  // ---------- contiguous logs ----------

  ghost predicate WellIndexed(l: Log) {
    forall k :: 0 <= k < |l.entries| ==> l.entries[k].index == l.baseIndex + 1 + k
  }

  ghost predicate Contiguous(es: seq<LogEntry>, first: nat) {
    forall k :: 0 <= k < |es| ==> es[k].index == first + k
  }

  lemma {:induction false} BelowContiguous(es: seq<LogEntry>, first: nat, f: nat)
    requires Contiguous(es, first)
    ensures Below(es, f) == es[..if f <= first then 0 else Min(f - first, |es|)]
  {
    if es != [] { BelowContiguous(es[1..], first + 1, f); }
  }

  lemma {:induction false} AboveContiguous(es: seq<LogEntry>, first: nat, t: nat)
    requires Contiguous(es, first)
    ensures Above(es, t) == es[if t < first then 0 else Min(t + 1 - first, |es|)..]
  {
    if es != [] { AboveContiguous(es[1..], first + 1, t); }
  }

  // ---------- the mirror ----------

  /** Replaying the pending operations on disk `d` gives the node's hard state and entries. */
  ghost predicate Mirror(s: NodeState, d: Disk) {
    ApplyOps(d, s.pending) == Disk(s.term, s.votedFor, s.log.entries, d.snapshot)
  }

  lemma PersistHardMirrors(s: NodeState, t: NodeState, d: Disk)
    requires Mirror(s, d) && t.pending == s.pending && t.log == s.log
    ensures Mirror(PersistHard(t), d)
  {
    ReplayWithoutHard(d, d, s.pending);
    ReplayPush(d, WithoutHardState(s.pending), HardState(t.term, t.votedFor));
    ReplaySnapshot(d, WithoutHardState(s.pending));
  }

  lemma StepDownMirrors(s: NodeState, t: Term, d: Disk)
    requires Mirror(s, d)
    ensures Mirror(StepDown(s, t), d)
  {
    hide Mirror, PersistHard;
    PersistHardMirrors(s, s.(term := Max(s.term, t), votedFor := None), d);
    MirrorSame(s, StepDown(s, t), d);
    if s.term < t || s.votedFor.Some? {
      MirrorSame(PersistHard(s.(term := Max(s.term, t), votedFor := None)), StepDown(s, t), d);
    }
  }

  lemma MirrorSame(s: NodeState, t: NodeState, d: Disk)
    ensures Mirror(s, d) && t.term == s.term && t.votedFor == s.votedFor && t.log == s.log && t.pending == s.pending ==>
              Mirror(t, d)
  {
  }

  lemma AppendLocalMirrors(s: NodeState, payload: seq<byte>, d: Disk)
    requires Mirror(s, d)
    ensures Mirror(AppendLocal(s, payload), d)
  {
    ReplayPush(d, s.pending, Append([LogEntry(s.term, LastIndex(s.log) + 1, payload)]));
  }

  lemma FollowMirrors(s: NodeState, t: Term, leader: NodeId, d: Disk)
    requires Mirror(s, d)
    ensures Mirror(Follow(s, t, leader), d)
  {
    hide Mirror, PersistHard;
    PersistHardMirrors(s, s.(term := t, votedFor := None), d);
    MirrorSame(s, Follow(s, t, leader), d);
    if s.term < t { MirrorSame(PersistHard(s.(term := t, votedFor := None)), Follow(s, t, leader), d); }
  }

  /** Cutting the disk at the first changed index and appending from there gives the new log. */
  lemma AppendAtReplays(l: Log, start: LogIndex, es: seq<LogEntry>, committed: LogIndex)
    requires WellIndexed(l) && 0 < start
    ensures match AppendAt(l, start, es, committed)
            case Refused => true
            case Appended(l', None) => l' == l
            case Appended(l', Some(first)) =>
              var scan := ScanFrom(l, start, es, 0);
              var kept := if scan.conflict then CutFrom(l, start + scan.skip) else l;
              && first == LastIndex(kept) + 1
              && Below(l.entries, first) == kept.entries
              && EntriesFrom(l', first) == Renumber(es[scan.skip..], first)
              && kept.entries + EntriesFrom(l', first) == l'.entries
  {
    hide ScanFrom, CutFrom, EntriesFrom, Renumber, LastIndex, WellIndexed;
    var scan := ScanFrom(l, start, es, 0);
    var out := AppendAt(l, start, es, committed);
    if out.Appended? && out.firstChanged.Some? {
      KeptPart(l, start, es);
      var kept := if scan.conflict then CutFrom(l, start + scan.skip) else l;
      PushedPart(kept, es[scan.skip..]);
    }
  }

  lemma KeptPart(l: Log, start: LogIndex, es: seq<LogEntry>)
    requires WellIndexed(l)
    ensures var scan := ScanFrom(l, start, es, 0);
            var kept := if scan.conflict then CutFrom(l, start + scan.skip) else l;
            WellIndexed(kept) && Below(l.entries, LastIndex(kept) + 1) == kept.entries
  {
    hide ScanFrom, CutFrom, Below, WellIndexed;
    ScanStops(l, start, es, 0);
    var scan := ScanFrom(l, start, es, 0);
    if scan.conflict {
      CutPart(l, start + scan.skip);
    } else {
      WholePart(l);
    }
  }

  lemma CutPart(l: Log, cut: LogIndex)
    requires WellIndexed(l) && l.baseIndex < cut <= l.baseIndex + |l.entries|
    ensures var kept := CutFrom(l, cut);
            WellIndexed(kept) && Below(l.entries, LastIndex(kept) + 1) == kept.entries
  {
    hide Below;
    BelowContiguous(l.entries, l.baseIndex + 1, cut);
    assert CutFrom(l, cut) == l.(entries := l.entries[..cut - l.baseIndex - 1]);
  }

  lemma WholePart(l: Log)
    requires WellIndexed(l)
    ensures Below(l.entries, LastIndex(l) + 1) == l.entries
  {
    hide Below;
    BelowContiguous(l.entries, l.baseIndex + 1, LastIndex(l) + 1);
  }

  lemma PushedPart(kept: Log, es: seq<LogEntry>)
    requires WellIndexed(kept) && es != []
    ensures var first := LastIndex(kept) + 1;
            EntriesFrom(kept.(entries := kept.entries + Renumber(es, first)), first) == Renumber(es, first)
  {
  }

  lemma {:induction false} ScanStops(l: Log, start: LogIndex, es: seq<LogEntry>, skip: nat)
    requires WellIndexed(l) && skip <= |es|
    ensures var r := ScanFrom(l, start, es, skip);
            r.conflict ==> l.baseIndex < start + r.skip <= l.baseIndex + |l.entries|
    decreases |es| - skip
  {
    if skip < |es| { ScanStops(l, start, es, skip + 1); }
  }

  lemma AcceptEntriesMirrors(s: NodeState, m: Message, d: Disk)
    requires Mirror(s, d) && WellIndexed(s.log) && m.AppendEntries? && AcceptEntries(s, m).Some?
    ensures Mirror(AcceptEntries(s, m).value, d)
  {
    hide WellIndexed, EntriesFrom;
    if m.entries != [] {
      AppendAtReplays(s.log, m.prevLogIndex + 1, m.entries, s.commitIndex);
      var out := AppendAt(s.log, m.prevLogIndex + 1, m.entries, s.commitIndex);
      if out.Appended? && out.firstChanged.Some? {
        var cut := TruncateFrom(out.firstChanged.value);
        var app := Append(EntriesFrom(out.log, out.firstChanged.value));
        ReplayPush(d, s.pending, cut);
        ReplayPush(d, s.pending + [cut], app);
        assert s.pending + [cut, app] == s.pending + [cut] + [app];
      }
    }
  }

  lemma CompactMirrors(s: NodeState, cut: LogIndex, t: Term, d: Disk)
    requires Mirror(s, d) && WellIndexed(s.log) && s.log.baseIndex < cut
    ensures Mirror(s.(log := CompactTo(s.log, cut, t), pending := s.pending + [CompactThrough(cut)]), d)
  {
    ReplayPush(d, s.pending, CompactThrough(cut));
    AboveContiguous(s.log.entries, s.log.baseIndex + 1, cut);
  }

  lemma InstallDoneMirrors(s: NodeState, m: Message, d: Disk)
    requires Mirror(s, d) && WellIndexed(s.log) && m.InstallSnapshot?
    ensures Mirror(InstallDone(s, m), d)
  {
    hide WellIndexed, CompactTo, KeepsSuffix;
    if s.log.baseIndex < m.lastIndex {
      if KeepsSuffix(s.log, m.lastIndex, m.lastTerm) {
        CompactMirrors(s, m.lastIndex, m.lastTerm, d);
      } else {
        ReplayPush(d, s.pending, TruncateFrom(0));
        BelowNothing(s.log);
      }
    }
  }

  lemma BelowNothing(l: Log)
    requires WellIndexed(l)
    ensures Below(l.entries, 0) == []
  {
    BelowContiguous(l.entries, l.baseIndex + 1, 0);
  }

  lemma VoteMirrors(s: NodeState, m: Message, d: Disk)
    requires Mirror(s, d) && m.RequestVote?
    ensures Mirror(HandleRequestVote(s, m).state, d)
  {
    hide Mirror, PersistHard;
    PersistHardMirrors(s, s.(votedFor := Some(m.candidate)), d);
  }

  lemma LeadMirrors(s: NodeState, d: Disk)
    requires Mirror(s, d)
    ensures Mirror(BecomeLeader(s), d)
  {
    hide Mirror, AppendLocal, CommitCandidate;
    var s1 := s.(role := Leader, leaderHint := Some(s.me), matchIndex := map[], nextIndex := map[],
                 snapshotCursor := map[]);
    MirrorSame(s, s1, d);
    AppendLocalMirrors(s1, [], d);
    MirrorSame(Claim(s), TrackPeers(Claim(s)), d);
    MirrorSame(TrackPeers(Claim(s)), BecomeLeader(s), d);
  }

  lemma DispatchMirrors(s: NodeState, m: Message, progress: nat, d: Disk)
    requires Mirror(s, d) && WellIndexed(s.log)
    ensures Mirror(Dispatch(s, m, progress).state, d)
  {
    hide Mirror, WellIndexed, BecomeLeader, AcceptEntries, InstallDone, Recompute, PersistHard, ReplicateTo,
         HandleRequestVote, HeartbeatTick, Follow;
    match m
    case RequestVote(_, _, _, _) => VoteMirrors(s, m, d);
    case RequestVoteResp(_, _, _) =>
      var s1 := s.(votes := s.votes + {m.voter});
      MirrorSame(s, s1, d);
      LeadMirrors(s1, d);
    case AppendEntries(_, _, _, _, _, _) =>
      if s.term <= m.term {
        var s1 := Follow(s, m.term, m.leader);
        FollowMirrors(s, m.term, m.leader, d);
        assert WellIndexed(s1.log) by { FollowLog(s, m.term, m.leader); }
        if AcceptEntries(s1, m).Some? { AcceptEntriesMirrors(s1, m, d); }
      }
    case AppendEntriesResp(_, _, _, _) =>
      var s1 := NoteMatch(s, m.responder, m.matchIndex);
      RecomputeSame(s1);
      MirrorSame(s, Recompute(s1), d);
      MirrorSame(s, BackOff(s, m.responder, m.matchIndex), d);
    case InstallSnapshot(_, _, _, _, _, _, _) =>
      if s.term <= m.term {
        var s1 := Follow(s, m.term, m.leader);
        FollowMirrors(s, m.term, m.leader, d);
        assert WellIndexed(s1.log) by { FollowLog(s, m.term, m.leader); }
        InstallDoneMirrors(s1, m, d);
      }
    case InstallSnapshotResp(_, _, _, _, _) =>
      var s1 := NoteInstalled(s, m.responder, m.installedIndex);
      RecomputeSame(s1);
      MirrorSame(s, Recompute(s1), d);
      MirrorSame(s, s.(snapshotCursor := s.snapshotCursor[m.responder := m.nextOffset]), d);
  }

  lemma FollowLog(s: NodeState, t: Term, leader: NodeId)
    ensures Follow(s, t, leader).log == s.log
  {
  }

  lemma OnMessageMirrors(s: NodeState, m: Message, progress: nat, d: Disk)
    requires Mirror(s, d) && WellIndexed(s.log)
    ensures Mirror(OnMessage(s, m, progress).state, d)
  {
    hide Mirror, WellIndexed, Dispatch, StepDown;
    if !Ignored(s, m) {
      var s1 := if s.term < m.term then StepDown(s, m.term) else s;
      StepDownMirrors(s, m.term, d);
      assert WellIndexed(s1.log) by { StepDownLog(s, m.term); }
      DispatchMirrors(s1, m, progress, d);
      MirrorSame(Dispatch(s1, m, progress).state, OnMessage(s, m, progress).state, d);
    }
  }

  lemma StepDownLog(s: NodeState, t: Term)
    ensures StepDown(s, t).log == s.log
  {
  }

  lemma TimeoutMirrors(s: NodeState, d: Disk)
    requires Mirror(s, d)
    ensures Mirror(ElectionTimeout(s).state, d)
  {
    hide Mirror, BecomeLeader, PersistHard, HeartbeatTick;
    var c := Campaign(s);
    var campaign := s.(term := s.term + 1, role := Candidate, votedFor := Some(s.me), votes := {s.me},
                       leaderHint := None);
    PersistHardMirrors(s, campaign, d);
    LeadMirrors(c, d);
    MirrorSame(BecomeLeader(c), Drain(BecomeLeader(c)).state, d);
  }

  lemma ProposeMirrors(s: NodeState, payload: seq<byte>, d: Disk)
    requires Mirror(s, d)
    ensures Mirror(Propose(s, payload).1.state, d)
  {
    hide Mirror, AppendLocal, Recompute;
    AppendLocalMirrors(s, payload, d);
    var s1 := AppendLocal(s, payload);
    RecomputeSame(s1);
    MirrorSame(s1, Drain(Recompute(s1)).state, d);
  }

  /** Replaying everything an event recorded on the disk the node had gives the node's new state. */
  lemma ReactMirrors(node: Node, ev: Event, env: Env)
    requires Mirror(node.raft, node.disk) && WellIndexed(node.raft.log)
    ensures Mirror(React(node, ev, env).raft, node.disk)
  {
    hide Mirror, WellIndexed, OnMessage, ElectionTimeout, Propose, HeartbeatTick, TakeSnapshot;
    var s, d := node.raft, node.disk;
    match ev
    case Receive(m) =>
      OnMessageMirrors(s, m, 0, d);
      OnMessageMirrors(s, m, env.progress, d);
    case Timeout => TimeoutMirrors(s, d);
    case Tick =>
    case Submit(payload) => ProposeMirrors(s, payload, d);
    case SnapshotRequest(data, through) => TakeSnapshotMirrors(s, data, through, d);
  }

  lemma TakeSnapshotMirrors(s: NodeState, data: seq<byte>, through: Option<LogIndex>, d: Disk)
    requires Mirror(s, d) && WellIndexed(s.log)
    ensures TakeSnapshot(s, data, through).Some? ==> Mirror(TakeSnapshot(s, data, through).value.0, d)
  {
    hide Mirror, WellIndexed, CompactTo, TermAt;
    var r := TakeSnapshot(s, data, through);
    if r.Some? {
      CompactMirrors(s, r.value.1.lastIndex, r.value.1.lastTerm, d);
    }
  }
}
