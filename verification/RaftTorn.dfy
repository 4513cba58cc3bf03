/** Every crash a run allows in the middle of persisting one event leaves a faithful disk. */
module RaftTorn {
  import opened Basics
  import opened RaftTypes
  import opened RaftLog
  import opened RaftNode
  import opened RaftCluster
  import opened RaftSim
  import opened RaftSteps
  import opened RaftFollower
  import opened RaftEvents
  import opened RaftDurable
  import opened RaftRestart
  import P = RaftProtocol

  /** The protocol can follow to a state for which `d` is a faithful disk of `n`. */
  ghost predicate Leaves(p: P.Proto, p': P.Proto, n: NodeId, d: Disk) {
    P.Inv(p') && P.Moved(p, p', n) && DiskFor(p', n, d)
  }

  /** A resting node and its disk, before the event. */
  ghost predicate Resting(p: P.Proto, n: NodeId, s: NodeState, d: Disk) {
    P.Inv(p) && NodeOk(p, n, s) && DiskRests(s, d)
  }

  /** A state on the way through the event: tied, mirrored, at most one more operation recorded. */
  ghost predicate Midway(p: P.Proto, n: NodeId, s: NodeState, d: Disk, h: Mid) {
    && Follows(p, h.p, n, h.s) && Mirror(h.s, d) && SnapshotRests(h.s.log, d.snapshot)
    && (h.s.pending == s.pending || exists op: PersistOp :: !op.Append? && h.s.pending == s.pending + [op])
  }

  lemma TornAtHard(p: P.Proto, n: NodeId, s: NodeState, d0: Disk, h: Mid, k: nat, t: nat) returns (p': P.Proto)
    requires Resting(p, n, s, d0) && Midway(p, n, s, d0, h) && k <= |h.s.pending|
    ensures Leaves(p, p', n, ApplyOps(d0, Torn(h.s.pending, k, t)))
  {
    hide P.Inv, P.Moved, NodeOk, DiskFor, Mirror, SnapshotRests, DiskRests;
    TornHard(p, n, s, d0, h, k, t);
    P.NothingMoves(p, n);
    p' := if DiskFor(h.p, n, ApplyOps(d0, Torn(h.s.pending, k, t))) then h.p else p;
  }

  lemma TornAtEntry(p: P.Proto, n: NodeId, s: NodeState, d0: Disk, h: Mid, f: Mid, e: LogEntry, k: nat, t: nat)
    returns (p': P.Proto)
    requires Resting(p, n, s, d0) && Midway(p, n, s, d0, h)
    requires Follows(p, f.p, n, f.s) && Mirror(f.s, d0) && SnapshotRests(f.s.log, d0.snapshot)
    requires f.s.pending == h.s.pending + [Append([e])] && k <= |f.s.pending|
    ensures Leaves(p, p', n, ApplyOps(d0, Torn(f.s.pending, k, t)))
  {
    hide P.Inv, P.Moved, NodeOk, DiskFor, Mirror, SnapshotRests, DiskRests;
    TornEntry(p, n, s, d0, h, f, e, k, t);
    P.NothingMoves(p, n);
    var d := ApplyOps(d0, Torn(f.s.pending, k, t));
    p' := if DiskFor(h.p, n, d) then h.p else if DiskFor(f.p, n, d) then f.p else p;
  }

  // ---------- messages ----------

  /** After the node adopted the message's term: at most one hard state is recorded. */
  lemma AfterStepDown(p: P.Proto, n: NodeId, s: NodeState, d0: Disk, t: Term) returns (h: Mid)
    requires Resting(p, n, s, d0) && s.term <= t
    ensures h.s == (if s.term < t then StepDown(s, t) else s) && Midway(p, n, s, d0, h)
    ensures s.term < t ==> h.s.pending == s.pending + [HardState(t, None)]
    ensures P.Extends(p, h.p)
  {
    hide P.Inv, P.Moved, PeersOf, CommitKnown, LeaderOk, CandidateOk, Mirror;
    assert Mirror(s, d0) by { RestMirrors(s, d0, p.full[n]); }
    P.NothingMoves(p, n);
    h := Mid(p, s);
    if s.term < t {
      var p1 := StepDownOk(p, n, s, t);
      StepDownMirrors(s, t, d0);
      StepDownPending(s, t);
      h := Mid(p1, StepDown(s, t));
    }
    MovedExtends(p, h.p, n);
  }

  lemma OneHardState(ops: seq<PersistOp>, op: PersistOp)
    requires op.HardState? && (ops == [] || exists b: nat :: ops == [CompactThrough(b)])
    ensures WithoutHardState(ops) == ops && WithoutHardState(ops + [op]) == ops
  {
    assert [op][1..] == [];
    assert WithoutHardState([op]) == [];
    if ops != [] {
      assert ops[1..] == [];
      assert (ops + [op])[1..] == [op];
      assert (ops + [op])[0] == ops[0];
      assert [ops[0]] + [] == ops;
    } else {
      assert ops + [op] == [op];
    }
  }

  lemma RestingShape(p: P.Proto, n: NodeId, s: NodeState, d: Disk)
    requires Resting(p, n, s, d)
    ensures s.pending == [] || exists b: nat :: s.pending == [CompactThrough(b)]
    ensures NoAppend(s.pending)
  {
  }

  lemma StepDownPending(s: NodeState, t: Term)
    requires s.term < t && (s.pending == [] || exists b: nat :: s.pending == [CompactThrough(b)])
    ensures StepDown(s, t).pending == s.pending + [HardState(t, None)] && StepDown(s, t).log == s.log
  {
    OneHardState(s.pending, HardState(t, None));
  }

  lemma TornVote(p: P.Proto, n: NodeId, s: NodeState, d0: Disk, h: Mid, m: Message, k: nat, t: nat)
    returns (p': P.Proto)
    requires Resting(p, n, s, d0) && Midway(p, n, s, d0, h) && m.RequestVote? && MessageOk(h.p, n, m) &&
             m.term <= h.s.term
    requires h.s.pending == s.pending || exists op: PersistOp :: op.HardState? && h.s.pending == s.pending + [op]
    requires k <= |HandleRequestVote(h.s, m).state.pending|
    ensures Leaves(p, p', n, ApplyOps(d0, Torn(HandleRequestVote(h.s, m).state.pending, k, t)))
  {
    hide P.Inv, P.Moved, NodeOk, DiskFor, Mirror, MessageOk, DiskRests;
    var f := HandleRequestVote(h.s, m).state;
    if f.votedFor == h.s.votedFor {
      assert f == h.s;
      p' := TornAtHard(p, n, s, d0, h, k, t);
    } else {
      RestingShape(p, n, s, d0);
      OneHardState(s.pending, HardState(f.term, f.votedFor));
      if h.s.pending != s.pending {
        var op: PersistOp :| op.HardState? && h.s.pending == s.pending + [op];
        OneHardState(s.pending, op);
      }
      var p1 := VoteOkAfter(h.p, n, h.s, m);
      FollowsTrans(p, h.p, p1, n, h.s, f);
      VoteMirrors(h.s, m, d0);
      assert f.pending == s.pending + [HardState(f.term, f.votedFor)];
      p' := TornAtHard(p, n, s, d0, Mid(p1, f), k, t);
    }
  }

  lemma TornWin(p: P.Proto, n: NodeId, s: NodeState, d0: Disk, h: Mid, m: Message, k: nat, t: nat) returns (p': P.Proto)
    requires Resting(p, n, s, d0) && Midway(p, n, s, d0, h) && m.RequestVoteResp? && MessageOk(h.p, n, m)
    requires k <= |HandleRequestVoteResp(h.s, m).state.pending|
    ensures Leaves(p, p', n, ApplyOps(d0, Torn(HandleRequestVoteResp(h.s, m).state.pending, k, t)))
  {
    hide P.Inv, P.Moved, NodeOk, DiskFor, Mirror, MessageOk, DiskRests, Recompute, HeartbeatTick, SnapshotRests;
    var f := HandleRequestVoteResp(h.s, m).state;
    if f.pending == h.s.pending {
      p' := TornAtHard(p, n, s, d0, h, k, t);
    } else {
      var s1 := h.s.(votes := h.s.votes + {m.voter});
      LeadPending(s1);
      LeadsInTerm(s1);
      var p1 := VoteRespOk(h.p, n, h.s, m);
      FollowsTrans(p, h.p, p1, n, h.s, f);
      assert Mirror(f, d0) by { VoteRespMirrors(h.s, m, d0); }
      assert SnapshotRests(f.log, d0.snapshot) by { SameBaseRests(h.s.log, f.log, d0.snapshot); }
      var e := LogEntry(s1.term, LastIndex(s1.log) + 1, []);
      p' := TornAtEntry(p, n, s, d0, h, Mid(p1, f), e, k, t);
    }
  }

  lemma SameBaseRests(l: Log, l': Log, snap: Option<Snapshot>)
    requires SnapshotRests(l, snap) && l'.baseIndex == l.baseIndex && l'.baseTerm == l.baseTerm
    ensures SnapshotRests(l', snap)
  {
  }

  lemma LeadPending(s: NodeState)
    ensures var l := BecomeLeader(s);
            && l.log.baseIndex == s.log.baseIndex && l.log.baseTerm == s.log.baseTerm
            && l.pending ==
                 if s.noopOnElect then s.pending + [Append([LogEntry(s.term, LastIndex(s.log) + 1, [])])] else s.pending
  {
    hide CommitCandidate;
    RecomputeSame(TrackPeers(Claim(s)));
  }

  lemma VoteRespMirrors(s: NodeState, m: Message, d: Disk)
    requires Mirror(s, d) && m.RequestVoteResp?
    ensures Mirror(HandleRequestVoteResp(s, m).state, d)
  {
    hide Mirror, BecomeLeader, HeartbeatTick;
    var s1 := s.(votes := s.votes + {m.voter});
    MirrorSame(s, s1, d);
    LeadMirrors(s1, d);
  }

  // ---------- accepted entries ----------

  lemma TornAccept(p: P.Proto, n: NodeId, s: NodeState, d0: Disk, h: Mid, m: Message, k: nat, t: nat)
    returns (p': P.Proto)
    requires Resting(p, n, s, d0) && Midway(p, n, s, d0, h) && m.AppendEntries? && AppendOk(h.p, n, m) &&
             m.term <= h.s.term
    requires k <= |HandleAppendEntries(h.s, m).state.pending|
    ensures Leaves(p, p', n, ApplyOps(d0, Torn(HandleAppendEntries(h.s, m).state.pending, k, t)))
  {
    hide P.Inv, P.Moved, NodeOk, DiskFor, Mirror, DiskRests, SnapshotRests, AppendOk, AppendAt, EntriesFrom, Consistent;
    var f := HandleAppendEntries(h.s, m).state;
    if f.pending == h.s.pending {
      p' := TornAtHard(p, n, s, d0, h, k, t);
    } else {
      var s1 := Follow(h.s, m.term, m.leader);
      var out := AppendAt(s1.log, m.prevLogIndex + 1, m.entries, s1.commitIndex);
      var first := out.firstChanged.value;
      var es := EntriesFrom(out.log, first);
      var pre := h.s.pending + [TruncateFrom(first)];
      assert f.pending == pre + [Append(es)];
      assert NoAppend(pre) by { RestingShape(p, n, s, d0); }
      TornAppend(pre, es, k, t);
      var ops := Torn(f.pending, k, t);
      if k < |pre| {
        assert pre[..k] == h.s.pending[..k];
        assert Torn(h.s.pending, k, 0) == h.s.pending[..k] by {
          assert NoAppend(h.s.pending) by {
            assert forall i :: 0 <= i < |h.s.pending| ==> h.s.pending[i] == pre[i];
          }
          TornPlain(h.s.pending, k, 0);
        }
        p' := TornAtHard(p, n, s, d0, h, k, 0);
      } else {
        var i := 0;
        if ops != pre { i :| 0 <= i <= |es| && ops == pre + [Append(es[..i])]; }
        p' := TornBatch(p, n, s, d0, h, m, i);
        TornBatchDisk(d0, pre, es, i, ops);
      }
    }
  }

  lemma TornBatchDisk(d0: Disk, pre: seq<PersistOp>, es: seq<LogEntry>, i: nat, ops: seq<PersistOp>)
    requires i <= |es| && (ops == pre + [Append(es[..i])] || (i == 0 && ops == pre))
    ensures ApplyOps(d0, ops) == ApplyOps(d0, pre).(log := ApplyOps(d0, pre).log + es[..i])
  {
    if ops == pre {
      assert ApplyOps(d0, pre).log + es[..0] == ApplyOps(d0, pre).log;
    } else {
      ReplayPush(d0, pre, Append(es[..i]));
    }
  }

  /** The disk with the cut and the first `i` new entries on it. */
  lemma TornBatch(p: P.Proto, n: NodeId, s: NodeState, d0: Disk, h: Mid, m: Message, i: nat) returns (p': P.Proto)
    requires Resting(p, n, s, d0) && Midway(p, n, s, d0, h) && m.AppendEntries? && AppendOk(h.p, n, m) &&
             m.term == h.s.term
    requires var s1 := Follow(h.s, m.term, m.leader);
             var out := AppendAt(s1.log, m.prevLogIndex + 1, m.entries, s1.commitIndex);
             Consistent(s1, m) && out.Appended? && out.firstChanged.Some? &&
             i <= |EntriesFrom(out.log, out.firstChanged.value)|
    ensures var s1 := Follow(h.s, m.term, m.leader);
            var out := AppendAt(s1.log, m.prevLogIndex + 1, m.entries, s1.commitIndex);
            var first := out.firstChanged.value;
            var d := ApplyOps(d0, h.s.pending + [TruncateFrom(first)]);
            Leaves(p, p', n, d.(log := d.log + EntriesFrom(out.log, first)[..i]))
  {
    hide P.Inv, P.Moved, PeersOf, CommitKnown, DiskFor, DiskRests, SnapshotRests, AppendOk, EntriesFrom, Consistent,
         CutFrom, Represents, LeaderOk, CandidateOk;
    var s1 := Follow(h.s, m.term, m.leader);
    assert WellIndexed(s1.log) by { RepresentsWell(h.s.log, h.p.full[n]); }
    AppendAtReplays(s1.log, m.prevLogIndex + 1, m.entries, s1.commitIndex);
    var p1, log := PartialAccept(h.p, n, s1, m, i);
    var out := AppendAt(s1.log, m.prevLogIndex + 1, m.entries, s1.commitIndex);
    var first := out.firstChanged.value;
    ReplayPush(d0, h.s.pending, TruncateFrom(first));
    var d := ApplyOps(d0, h.s.pending + [TruncateFrom(first)]);
    var d' := d.(log := d.log + EntriesFrom(out.log, first)[..i]);
    assert d'.log == log.entries;
    assert SnapshotRests(log, d'.snapshot) by {
      ReplaySnapshot(d0, h.s.pending);
      SameBaseRests(h.s.log, log, d0.snapshot);
    }
    MirrorDiskFor(p1, n, s1.(log := log), d');
    p' := p1;
    FollowsTrans(p, h.p, p1, n, h.s, s1.(log := log));
  }

  lemma RepresentsWell(l: Log, full: seq<LogEntry>)
    requires Represents(l, full)
    ensures WellIndexed(l)
  {
  }

  /** The handlers of one message, except for the installation of a snapshot, which `TornInstall` is about. */
  lemma TornDispatch(p: P.Proto, n: NodeId, s: NodeState, d0: Disk, h: Mid, m: Message, progress: nat, k: nat, t: nat)
    returns (p': P.Proto)
    requires Resting(p, n, s, d0) && Midway(p, n, s, d0, h) && MessageOk(h.p, n, m) && m.term <= h.s.term
    requires h.s.pending == s.pending || exists op: PersistOp :: op.HardState? && h.s.pending == s.pending + [op]
    requires m.InstallSnapshot? && m.done && m.term == h.s.term ==> m.lastIndex <= h.s.log.baseIndex
    requires k <= |Dispatch(h.s, m, progress).state.pending|
    ensures Leaves(p, p', n, ApplyOps(d0, Torn(Dispatch(h.s, m, progress).state.pending, k, t)))
  {
    hide P.Inv, P.Moved, Resting, Midway, Leaves, HandleRequestVote, HandleRequestVoteResp, HandleAppendEntries,
      HandleAppendEntriesResp, HandleInstallSnapshot, HandleInstallSnapshotResp, AppendOk, InstallOk;
    match m
    case RequestVote(_, _, _, _) => p' := TornVote(p, n, s, d0, h, m, k, t);
    case RequestVoteResp(_, _, _) => p' := TornWin(p, n, s, d0, h, m, k, t);
    case AppendEntries(_, _, _, _, _, _) => p' := TornAccept(p, n, s, d0, h, m, k, t);
    case AppendEntriesResp(_, _, _, _) => RecordsNothing(h.s, m, progress); p' := TornAtHard(p, n, s, d0, h, k, t);
    case InstallSnapshot(_, _, _, _, _, _, _) =>
      RecordsNothing(h.s, m, progress); p' := TornAtHard(p, n, s, d0, h, k, t);
    case InstallSnapshotResp(_, _, _, _, _) => RecordsNothing(h.s, m, progress); p' := TornAtHard(p, n, s, d0, h, k, t);
  }

  lemma RecordsNothing(s: NodeState, m: Message, progress: nat)
    requires m.AppendEntriesResp? || m.InstallSnapshot? || m.InstallSnapshotResp?
    requires m.term <= s.term && (m.InstallSnapshot? && m.done && m.term == s.term ==> m.lastIndex <= s.log.baseIndex)
    ensures Dispatch(s, m, progress).state.pending == s.pending
  {
    hide CommitCandidate, ReplicateTo, Matched;
  }

  lemma TornMessage(p: P.Proto, n: NodeId, s: NodeState, d0: Disk, m: Message, progress: nat, k: nat, t: nat)
    returns (p': P.Proto)
    requires Resting(p, n, s, d0) && MessageOk(p, n, m)
    requires m.InstallSnapshot? && m.done ==> OnMessage(s, m, progress).state.log.baseIndex <= s.log.baseIndex
    requires k <= |OnMessage(s, m, progress).state.pending|
    ensures Leaves(p, p', n, ApplyOps(d0, Torn(OnMessage(s, m, progress).state.pending, k, t)))
  {
    hide P.Inv, P.Moved, Resting, Midway, Leaves, Dispatch, StepDown, MessageOk;
    if Ignored(s, m) {
      var h := AfterStepDown(p, n, s, d0, s.term);
      p' := TornAtHard(p, n, s, d0, h, k, t);
    } else {
      var h := AfterStepDown(p, n, s, d0, Max(s.term, m.term));
      MessageStays(p, h.p, n, m);
      MidwayTerm(s, m.term);
      if m.InstallSnapshot? && m.done && m.term == h.s.term { InstallMoves(h.s, m, progress); }
      p' := TornDispatch(p, n, s, d0, h, m, progress, k, t);
    }
  }

  lemma MidwayTerm(s: NodeState, t: Term)
    ensures s.term < t ==> StepDown(s, t).term == t && StepDown(s, t).log == s.log
  {
  }

  lemma InstallMoves(s: NodeState, m: Message, progress: nat)
    requires m.InstallSnapshot? && m.done && m.term == s.term
    ensures s.log.baseIndex < m.lastIndex ==> Dispatch(s, m, progress).state.log.baseIndex == m.lastIndex
  {
  }

  // ---------- local events ----------

  lemma TornTimeout(p: P.Proto, n: NodeId, s: NodeState, d0: Disk, k: nat, t: nat) returns (p': P.Proto)
    requires Resting(p, n, s, d0) && k <= |ElectionTimeout(s).state.pending|
    ensures Leaves(p, p', n, ApplyOps(d0, Torn(ElectionTimeout(s).state.pending, k, t)))
  {
    hide P.Inv, P.Moved, NodeOk, DiskFor, Mirror, DiskRests, BecomeLeader, HeartbeatTick, SnapshotRests, Campaign,
         DrainFrom, Midway, Leaves;
    if s.role == Leader {
      var h := AfterStepDown(p, n, s, d0, s.term);
      p' := TornAtHard(p, n, s, d0, h, k, t);
    } else {
      var h := Campaigning(p, n, s, d0);
      var f := ElectionTimeout(s).state;
      if s.peers == [] && s.noopOnElect {
        LeadPending(h.s);
        var p1 := TimeoutOk(p, n, s);
        assert Mirror(f, d0) by { Mirrored(p, n, s, d0); TimeoutMirrors(s, d0); }
        assert SnapshotRests(f.log, d0.snapshot) by { SameBaseRests(s.log, f.log, d0.snapshot); }
        p' := TornAtEntry(p, n, s, d0, h, Mid(p1, f), LogEntry(h.s.term, LastIndex(h.s.log) + 1, []), k, t);
      } else {
        LeadPending(h.s);
        p' := TornAtHard(p, n, s, d0, h, k, t);
      }
    }
  }

  lemma Mirrored(p: P.Proto, n: NodeId, s: NodeState, d0: Disk)
    requires Resting(p, n, s, d0)
    ensures Mirror(s, d0) && SnapshotRests(s.log, d0.snapshot) && WellIndexed(s.log)
  {
    RestMirrors(s, d0, p.full[n]);
  }

  lemma Campaigning(p: P.Proto, n: NodeId, s: NodeState, d0: Disk) returns (h: Mid)
    requires Resting(p, n, s, d0) && s.role != Leader
    ensures h.s == Campaign(s) && Midway(p, n, s, d0, h) && SnapshotRests(s.log, d0.snapshot)
    ensures h.s.log == s.log && h.s.noopOnElect == s.noopOnElect
  {
    hide P.Inv, P.Moved, NodeOk, Mirror, DiskRests, SnapshotRests;
    var p1 := CampaignOk(p, n, s);
    Mirrored(p, n, s, d0);
    var campaign := s.(term := s.term + 1, role := Candidate, votedFor := Some(s.me), votes := {s.me},
                       leaderHint := None);
    PersistHardMirrors(s, campaign, d0);
    RestingShape(p, n, s, d0);
    OneHardState(s.pending, HardState(s.term + 1, Some(s.me)));
    h := Mid(p1, Campaign(s));
  }

  lemma TornSubmit(p: P.Proto, n: NodeId, s: NodeState, d0: Disk, payload: seq<byte>, k: nat, t: nat)
    returns (p': P.Proto)
    requires Resting(p, n, s, d0) && k <= |Propose(s, payload).1.state.pending|
    ensures Leaves(p, p', n, ApplyOps(d0, Torn(Propose(s, payload).1.state.pending, k, t)))
  {
    hide P.Inv, P.Moved, NodeOk, DiskFor, Mirror, DiskRests, HeartbeatTick, SnapshotRests, DrainFrom, Leaves, Recompute;
    var h := AfterStepDown(p, n, s, d0, s.term);
    if s.role != Leader {
      p' := TornAtHard(p, n, s, d0, h, k, t);
    } else {
      var f := Propose(s, payload).1.state;
      RecomputeSame(AppendLocal(s, payload));
      var p1 := ProposeOk(p, n, s, payload);
      assert Mirror(f, d0) by { Mirrored(p, n, s, d0); ProposeMirrors(s, payload, d0); }
      assert SnapshotRests(f.log, d0.snapshot) by { SameBaseRests(s.log, f.log, d0.snapshot); }
      p' := TornAtEntry(p, n, s, d0, h, Mid(p1, f), LogEntry(s.term, LastIndex(s.log) + 1, payload), k, t);
    }
  }

  // ---------- own snapshots: saved first, then the log is trimmed ----------

  lemma {:induction false} SavedAside(d: Disk, snap: Option<Snapshot>, ops: seq<PersistOp>)
    ensures ApplyOps(d.(snapshot := snap), ops) == ApplyOps(d, ops).(snapshot := snap)
    decreases |ops|
  {
    if ops != [] { SavedAside(ApplyOp(d, ops[0]), snap, ops[1..]); }
  }

  /** A faithful disk stays faithful when a newer snapshot of committed entries is saved on it. */
  lemma NewerSnapshot(p: P.Proto, n: NodeId, d: Disk, snap: Snapshot)
    requires DiskFor(p, n, d) && (d.snapshot.Some? ==> d.snapshot.value.lastIndex <= snap.lastIndex)
    requires 0 < snap.lastIndex <= |p.full[n]| && snap.lastTerm == p.full[n][snap.lastIndex - 1].term
    requires CommitKnown(p, p.full[n], snap.lastIndex, d.term)
    ensures DiskFor(p, n, d.(snapshot := Some(snap)))
  {
    var full := p.full[n];
    var j: nat :| DiskFrom(d, full, j);
    hide Above, CommitKnown;
    assert Above(d.log, snap.lastIndex) == full[snap.lastIndex..] by {
      if d.snapshot.Some? {
        AboveAbove(d.log, d.snapshot.value.lastIndex, snap.lastIndex);
        TrimmedLog(full, d.snapshot.value.lastIndex, snap.lastIndex);
      } else {
        TrimmedLog(full, 0, snap.lastIndex);
        assert full[0..] == full;
      }
    }
    assert DiskFrom(d.(snapshot := Some(snap)), full, j);
  }

  lemma SnapshotFacts(p: P.Proto, n: NodeId, s: NodeState, data: seq<byte>, through: Option<LogIndex>)
    requires NodeOk(p, n, s) && TakeSnapshot(s, data, through).Some?
    ensures var (s', snap) := TakeSnapshot(s, data, through).value;
            && s'.pending == s.pending + [CompactThrough(snap.lastIndex)] && SnapshotRests(s'.log, Some(snap))
            && s.log.baseIndex < snap.lastIndex <= |p.full[n]| && snap.lastTerm == p.full[n][snap.lastIndex - 1].term
            && CommitKnown(p, p.full[n], snap.lastIndex, s.term)
            && s'.term == s.term && s'.votedFor == s.votedFor
  {
    hide PeersOf, CommitKnown, Represents, CompactTo, TermAt, LeaderOk, CandidateOk;
    var (s', snap) := TakeSnapshot(s, data, through).value;
    TakeSnapshotOk(p, n, s, data, through);
    RepresentsGet(s.log, p.full[n], snap.lastIndex);
    CommitKnownLess(p, p.full[n], s.commitIndex, snap.lastIndex, s.term);
  }

  lemma TornSnapshot(p: P.Proto, n: NodeId, s: NodeState, d0: Disk, data: seq<byte>, through: Option<LogIndex>, k: nat,
                     t: nat)
    requires Resting(p, n, s, d0) && TakeSnapshot(s, data, through).Some?
    requires k <= |TakeSnapshot(s, data, through).value.0.pending|
    ensures var (s', snap) := TakeSnapshot(s, data, through).value;
            DiskFor(p, n, ApplyOps(d0.(snapshot := Some(snap)), Torn(s'.pending, k, t)))
  {
    hide P.Inv, P.Moved, NodeOk, DiskFor, Mirror, DiskRests, SnapshotRests, TakeSnapshot, CommitKnown;
    var (s', snap) := TakeSnapshot(s, data, through).value;
    SnapshotFacts(p, n, s, data, through);
    RestingShape(p, n, s, d0);
    TornPlain(s'.pending, k, t);
    var ops := s'.pending[..k];
    SavedAside(d0, Some(snap), ops);
    Mirrored(p, n, s, d0);
    if k == |s'.pending| {
      assert ops == s'.pending;
      TakeSnapshotMirrors(s, data, through, d0);
      TakeSnapshotOk(p, n, s, data, through);
      MirrorIs(s', d0);
      MirrorDiskFor(p, n, s', ApplyOps(d0, ops).(snapshot := Some(snap)));
    } else {
      assert ops == s.pending[..k];
      PrefixDisk(p, n, s, d0, Mid(p, s), k);
      ReplaySnapshot(d0, ops);
      assert d0.snapshot.Some? ==> d0.snapshot.value.lastIndex <= snap.lastIndex by { RestsAt(s.log, d0.snapshot); }
      assert ApplyOps(d0, ops).term == s.term by { DiskTerm(p, n, ApplyOps(d0, ops)); NodeTerm(p, n, s); }
      NewerSnapshot(p, n, ApplyOps(d0, ops), snap);
    }
  }

  lemma RestsAt(l: Log, snap: Option<Snapshot>)
    requires SnapshotRests(l, snap)
    ensures snap.Some? ==> snap.value.lastIndex == l.baseIndex
  {
  }

  lemma DiskTerm(p: P.Proto, n: NodeId, d: Disk)
    requires DiskFor(p, n, d)
    ensures n in p.term && d.term == p.term[n]
  {
  }

  lemma NodeTerm(p: P.Proto, n: NodeId, s: NodeState)
    requires NodeOk(p, n, s)
    ensures n in p.term && s.term == p.term[n]
  {
  }

  lemma MirrorIs(s: NodeState, d: Disk)
    requires Mirror(s, d)
    ensures var r := ApplyOps(d, s.pending); r.term == s.term && r.votedFor == s.votedFor && r.log == s.log.entries
  {
  }

  // ---------- received snapshots: saved first, then term, vote and log ----------

  /** What handling a message that installs a snapshot records. */
  lemma InstallRecords(s: NodeState, m: Message, progress: nat)
    requires m.InstallSnapshot? && m.done && s.log.baseIndex < OnMessage(s, m, progress).state.log.baseIndex
    ensures var h := if s.term < m.term then StepDown(s, m.term) else s; var f := OnMessage(s, m, progress).state;
            && !Ignored(s, m) && m.term == h.term && s.log.baseIndex < m.lastIndex
            && f.log == Install(s.log, m.lastIndex, m.lastTerm) && f.term == h.term && f.votedFor == h.votedFor
            && f.pending == h.pending + [if KeepsSuffix(s.log, m.lastIndex, m.lastTerm) then CompactThrough(m.lastIndex)
                                         else TruncateFrom(0)]
            && m.lastIndex <= f.commitIndex
  {
    hide DrainFrom, KeepsSuffix, Install, PersistHard;
    StepDownShapes(s, m.term);
  }

  lemma StepDownShapes(s: NodeState, t: Term)
    ensures StepDown(s, t).log == s.log && StepDown(s, t).term == Max(s.term, t)
  {
  }

  /** A disk with the node's hard state and stored entries that trim to its log. */
  ghost predicate Stores(d: Disk, h: NodeState) {
    d.term == h.term && d.votedFor == h.votedFor && exists j: nat :: TrimsTo(d.log, j, h.log)
  }

  lemma RestStores(p: P.Proto, n: NodeId, s: NodeState, d0: Disk)
    requires Resting(p, n, s, d0)
    ensures Stores(d0, s)
  {
    hide P.Inv, PeersOf, CommitKnown, LeaderOk, CandidateOk, Above;
    if s.pending == [] { HeldTrims(s.log); }
  }

  lemma HeldTrims(l: Log)
    requires WellIndexed(l)
    ensures TrimsTo(l.entries, l.baseIndex, l)
  {
    hide Above;
    AboveContiguous(l.entries, l.baseIndex + 1, l.baseIndex);
  }

  lemma MirrorStores(p: P.Proto, n: NodeId, h: NodeState, d0: Disk)
    requires NodeOk(p, n, h) && Mirror(h, d0)
    ensures Stores(ApplyOps(d0, h.pending), h)
  {
    hide PeersOf, CommitKnown, LeaderOk, CandidateOk, Above;
    HeldTrims(h.log);
  }

  /** Before the log operation, once the term is durable, the disk stores the node that adopted the term. */
  lemma PrefixStores(p: P.Proto, n: NodeId, s: NodeState, d0: Disk, h: Mid, k: nat)
    requires Resting(p, n, s, d0) && Midway(p, n, s, d0, h) && k <= |h.s.pending|
    requires h.s == s || (k == |h.s.pending|)
    ensures Stores(ApplyOps(d0, h.s.pending[..k]), h.s)
  {
    hide P.Inv, P.Moved, NodeOk, Mirror, SnapshotRests, Stores, DiskRests;
    if k == |h.s.pending| {
      assert h.s.pending[..k] == h.s.pending;
      MirrorStores(h.p, n, h.s, d0);
    } else {
      RestingShape(p, n, s, d0);
      assert h.s.pending[..k] == [];
      RestStores(p, n, s, d0);
    }
  }

  /** With the snapshot saved, such a disk is faithful to the node that has installed it. */
  lemma StoresInstalled(p: P.Proto, n: NodeId, f: NodeState, d: Disk, h: NodeState, snap: Snapshot)
    requires NodeOk(p, n, f) && Stores(d, h) && f.term == h.term && f.votedFor == h.votedFor
    requires h.log.baseIndex < snap.lastIndex <= f.commitIndex && WellIndexed(h.log)
    requires f.log == Install(h.log, snap.lastIndex, snap.lastTerm)
    requires KeepsSuffix(h.log, snap.lastIndex, snap.lastTerm) || LastIndex(h.log) <= snap.lastIndex
    ensures DiskFor(p, n, d.(snapshot := Some(snap)))
  {
    hide PeersOf, CommitKnown, LeaderOk, CandidateOk, Above, KeepsSuffix, Install, VoteOk, CompactTo;
    var li, full := snap.lastIndex, p.full[n];
    var j: nat :| TrimsTo(d.log, j, h.log);
    AboveAbove(d.log, h.log.baseIndex, li);
    InstalledIs(h.log, li, snap.lastTerm);
    assert DiskFrom(d.(snapshot := Some(snap)), full, j);
    CommitKnownLess(p, full, f.commitIndex, li, f.term);
  }

  lemma InstalledIs(l: Log, li: nat, lt: Term)
    requires WellIndexed(l) && l.baseIndex < li && (KeepsSuffix(l, li, lt) || LastIndex(l) <= li)
    ensures Install(l, li, lt) == Log(Above(l.entries, li), li, lt)
  {
    hide Above, KeepsSuffix;
    AboveContiguous(l.entries, l.baseIndex + 1, li);
  }

  /** A crash that leaves a received snapshot saved, and safely so, leaves a faithful disk. */
  lemma TornInstall(p: P.Proto, n: NodeId, node: Node, m: Message, env: Env, k: nat, t: nat) returns (p': P.Proto)
    requires Resting(p, n, node.raft, node.disk) && m.InstallSnapshot? && MessageOk(p, n, m)
    requires var r := React(node, Receive(m), env);
             r.saved.Some? && k <= |r.raft.pending| && SavedSafely(node.raft, m, r.raft.pending, k)
    ensures var r := React(node, Receive(m), env);
            Leaves(p, p', n, DiskAfter(node.disk, r.saved, Torn(r.raft.pending, k, t)))
  {
    hide P.Inv, P.Moved, DiskFor, MessageOk, OnMessage, SavedSafely, Leaves, Resting, Torn, ApplyOps;
    var s, d0 := node.raft, node.disk;
    var r := React(node, Receive(m), env);
    var progress := if s.term <= m.term && node.transfer then env.progress else 0;
    var snap := r.saved.value;
    assert r.raft == OnMessage(s, m, progress).state && snap.lastIndex == m.lastIndex && snap.lastTerm == m.lastTerm;
    p' := SavedFaithful(p, n, s, d0, m, progress, snap, k, t);
  }

  lemma SavedFaithful(p: P.Proto, n: NodeId, s: NodeState, d0: Disk, m: Message, progress: nat, snap: Snapshot, k: nat,
                      t: nat)
    returns (p': P.Proto)
    requires Resting(p, n, s, d0) && m.InstallSnapshot? && m.done && MessageOk(p, n, m)
    requires snap.lastIndex == m.lastIndex && snap.lastTerm == m.lastTerm
    requires s.log.baseIndex < OnMessage(s, m, progress).state.log.baseIndex
    requires var ops := OnMessage(s, m, progress).state.pending; k <= |ops| && SavedSafely(s, m, ops, k)
    ensures Leaves(p, p', n, ApplyOps(d0.(snapshot := Some(snap)), Torn(OnMessage(s, m, progress).state.pending, k, t)))
  {
    hide P.Inv, P.Moved, NodeOk, DiskFor, Mirror, MessageOk, OnMessage, Midway, Stores, KeepsSuffix, SnapshotRests,
         DiskRests, Install, StepDown, WellIndexed;
    var f := OnMessage(s, m, progress).state;
    InstallRecords(s, m, progress);
    var h := AfterStepDown(p, n, s, d0, Max(s.term, m.term));
    RestingShape(p, n, s, d0);
    StepDownShapes(s, m.term);
    InstallNoAppend(s.pending, h.s.pending, f.pending, m.term);
    TornPlain(f.pending, k, t);
    SavedAside(d0, Some(snap), f.pending[..k]);
    p' := MessageFollows(p, n, s, m, progress);
    if k == |f.pending| {
      assert f.pending[..k] == f.pending;
      WholeFaithful(p, p', n, s, d0, m, progress, snap);
    } else {
      DurableTerm(s.pending, h.s.pending, f.pending, m.term, k, s.term < m.term);
      assert f.pending[..k] == h.s.pending[..k];
      PrefixStores(p, n, s, d0, h, k);
      Mirrored(p, n, s, d0);
      StoresInstalled(p', n, f, ApplyOps(d0, f.pending[..k]), h.s, snap);
    }
  }

  /** With every operation on disk, the disk mirrors the node. */
  lemma WholeFaithful(p: P.Proto, p': P.Proto, n: NodeId, s: NodeState, d0: Disk, m: Message, progress: nat,
                      snap: Snapshot)
    requires Resting(p, n, s, d0) && m.InstallSnapshot? && snap.lastIndex == m.lastIndex && snap.lastTerm == m.lastTerm
    requires NodeOk(p', n, OnMessage(s, m, progress).state) && s.log.baseIndex < m.lastIndex
    requires OnMessage(s, m, progress).state.log == Install(s.log, m.lastIndex, m.lastTerm)
    ensures DiskFor(p', n, ApplyOps(d0, OnMessage(s, m, progress).state.pending).(snapshot := Some(snap)))
  {
    hide P.Inv, NodeOk, DiskFor, Mirror, OnMessage, SnapshotRests, DiskRests, Install;
    var f := OnMessage(s, m, progress).state;
    Mirrored(p, n, s, d0);
    OnMessageMirrors(s, m, progress, d0);
    MirrorIs(f, d0);
    InstalledRests(s.log, snap);
    MirrorDiskFor(p', n, f, ApplyOps(d0, f.pending).(snapshot := Some(snap)));
  }

  lemma MessageFollows(p: P.Proto, n: NodeId, s: NodeState, m: Message, progress: nat) returns (p': P.Proto)
    requires P.Inv(p) && NodeOk(p, n, s) && MessageOk(p, n, m)
    ensures Follows(p, p', n, OnMessage(s, m, progress).state)
  {
    p' := OnMessageOk(p, n, s, m, progress);
  }

  lemma InstalledRests(l: Log, snap: Snapshot)
    requires l.baseIndex < snap.lastIndex
    ensures SnapshotRests(Install(l, snap.lastIndex, snap.lastTerm), Some(snap))
  {
    hide KeepsSuffix;
  }

  lemma InstallNoAppend(a: seq<PersistOp>, b: seq<PersistOp>, c: seq<PersistOp>, t: Term)
    requires NoAppend(a) && (b == a || b == a + [HardState(t, None)]) &&
             exists op: PersistOp :: !op.Append? && c == b + [op]
    ensures NoAppend(c)
  {
  }

  /** If the term is durable before the log operation, everything before that operation is on disk. */
  lemma DurableTerm(a: seq<PersistOp>, b: seq<PersistOp>, c: seq<PersistOp>, t: Term, k: nat, newer: bool)
    requires (a == [] || exists x: nat :: a == [CompactThrough(x)]) && k < |c| &&
             exists op: PersistOp :: !op.HardState? && c == b + [op]
    requires newer ==> b == a + [HardState(t, None)] && exists i :: 0 <= i < k && c[i].HardState?
    ensures newer ==> k == |b|
  {
    if newer {
      var i :| 0 <= i < k && c[i].HardState?;
      assert i == |a|;
    }
  }

  // ---------- any event ----------

  /** Whatever a crash leaves of an event, the protocol can follow to a state the disk is faithful to. */
  lemma TornOk(p: P.Proto, n: NodeId, node: Node, ev: Event, env: Env, d: Disk) returns (p': P.Proto)
    requires Resting(p, n, node.raft, node.disk) && (ev.Receive? ==> MessageOk(p, n, ev.msg)) &&
             LeavesDisk(node, ev, env, d)
    ensures Leaves(p, p', n, d)
  {
    hide P.Inv, P.Moved, Resting, MessageOk, DiskFor, OnMessage, ElectionTimeout, Propose, TakeSnapshot, HeartbeatTick;
    var s := node.raft;
    var r := React(node, ev, env);
    var k: nat, t: nat :|
      && k <= |r.raft.pending| && d == DiskAfter(node.disk, r.saved, Torn(r.raft.pending, k, t))
      && (ev.Receive? && ev.msg.InstallSnapshot? && r.saved.Some? ==> SavedSafely(s, ev.msg, r.raft.pending, k));
    match ev
    case Receive(m) =>
      if m.InstallSnapshot? && r.saved.Some? {
        p' := TornInstall(p, n, node, m, env, k, t);
      } else {
        var progress := if m.InstallSnapshot? && s.term <= m.term && node.transfer then env.progress else 0;
        p' := TornMessage(p, n, s, node.disk, m, progress, k, t);
      }
    case Timeout => p' := TornTimeout(p, n, s, node.disk, k, t);
    case Tick =>
      var h := AfterStepDown(p, n, s, node.disk, s.term);
      p' := TornAtHard(p, n, s, node.disk, h, k, t);
    case Submit(payload) => p' := TornSubmit(p, n, s, node.disk, payload, k, t);
    case SnapshotRequest(data, through) =>
      TornSnapshot(p, n, s, node.disk, data, through, k, t);
      assert P.Inv(p) by { RestingInv(p, n, s, node.disk); }
      P.NothingMoves(p, n);
      p' := p;
  }

  lemma RestingInv(p: P.Proto, n: NodeId, s: NodeState, d: Disk)
    requires Resting(p, n, s, d)
    ensures P.Inv(p)
  {
  }
}
