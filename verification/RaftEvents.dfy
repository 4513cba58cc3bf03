/** Whole events at one node, in memory: every message, timeout, tick, proposal and own snapshot. */
module RaftEvents {
  import opened Basics
  import opened RaftTypes
  import opened RaftLog
  import opened RaftNode
  import opened RaftCluster
  import opened RaftSim
  import opened RaftCommit
  import opened RaftSteps
  import opened RaftFollower
  import P = RaftProtocol

  // ---------- answers to the leader ----------

  lemma MatchedOk(p: P.Proto, n: NodeId, s: NodeState, q: NodeId, reported: LogIndex)
    requires NodeOk(p, n, s) && s.role == Leader && AckOk(p, q, s.term, reported)
    ensures Matched(s, q, reported) <= |p.full[n]|
    ensures 0 < Matched(s, q, reported) ==> P.Acked(p, q, s.term, Matched(s, q, reported))
  {
    hide PeersOf, CommitKnown, Represents, LastIndex;
    RepresentsEnd(s.log, p.full[n]);
    var i := Min(reported, LastIndex(s.log));
    if 0 < i { AckedLess(p, q, s.term, reported, i); }
  }

  lemma NoteMatchOk(p: P.Proto, n: NodeId, s: NodeState, q: NodeId, reported: LogIndex)
    requires NodeOk(p, n, s) && s.role == Leader && AckOk(p, q, s.term, reported)
    ensures NodeOk(p, n, NoteMatch(s, q, reported)) && NoteMatch(s, q, reported).role == Leader
  {
    hide PeersOf, CommitKnown, Represents, Matched, P.Acked;
    MatchedOk(p, n, s, q, reported);
  }

  lemma BackOffOk(p: P.Proto, n: NodeId, s: NodeState, q: NodeId, hint: LogIndex)
    requires NodeOk(p, n, s) && s.role == Leader
    ensures NodeOk(p, n, BackOff(s, q, hint)) && BackOff(s, q, hint).role == Leader
  {
    hide PeersOf, CommitKnown, Represents, P.Acked;
  }

  lemma AppendRespOk(p: P.Proto, n: NodeId, s: NodeState, m: Message)
    requires P.Inv(p) && NodeOk(p, n, s) && m.AppendEntriesResp? && MessageOk(p, n, m) && m.responder != n
    ensures NodeOk(p, n, HandleAppendEntriesResp(s, m).state)
    ensures ActionsOk(p, HandleAppendEntriesResp(s, m).state, HandleAppendEntriesResp(s, m).actions)
  {
    hide P.Inv, NodeOk, AckOk, Recompute, ReplicateTo, ActionOk, LastIndex, NoteMatch, BackOff, Matched;
    if s.role == Leader && m.term == s.term {
      if m.success {
        var s1 := NoteMatch(s, m.responder, m.matchIndex);
        NoteMatchOk(p, n, s, m.responder, m.matchIndex);
        RecomputeCommits(p, n, s1);
        RecomputeSame(s1);
        ReplicateOk(p, n, Recompute(s1), m.responder);
      } else {
        BackOffOk(p, n, s, m.responder, m.matchIndex);
        ReplicateOk(p, n, BackOff(s, m.responder, m.matchIndex), m.responder);
      }
    }
  }

  lemma InstallRespOk(p: P.Proto, n: NodeId, s: NodeState, m: Message)
    requires P.Inv(p) && NodeOk(p, n, s) && m.InstallSnapshotResp? && MessageOk(p, n, m) && m.responder != n
    ensures NodeOk(p, n, HandleInstallSnapshotResp(s, m).state)
    ensures ActionsOk(p, HandleInstallSnapshotResp(s, m).state, HandleInstallSnapshotResp(s, m).actions)
  {
    hide P.Inv, NodeOk, AckOk, Recompute, ReplicateTo, LastIndex, MessageOk, NoteInstalled, Matched;
    NodeMe(p, n, s);
    CursorAside(p, n, s, m.responder, m.nextOffset);
    if s.role == Leader && m.term == s.term && m.success && 0 < m.installedIndex {
      assert AckOk(p, m.responder, s.term, m.installedIndex) by { InstallRespFacts(p, n, m); }
      var s1 := NoteInstalled(s, m.responder, m.installedIndex);
      NoteInstalledOk(p, n, s, m.responder, m.installedIndex);
      RecomputeCommits(p, n, s1);
      RecomputeSame(s1);
      ReplicateOk(p, n, Recompute(s1), m.responder);
    }
  }

  lemma NodeMe(p: P.Proto, n: NodeId, s: NodeState)
    requires NodeOk(p, n, s)
    ensures s.me == n
  {
  }

  lemma CursorAside(p: P.Proto, n: NodeId, s: NodeState, q: NodeId, offset: nat)
    requires NodeOk(p, n, s)
    ensures NodeOk(p, n, s.(snapshotCursor := s.snapshotCursor[q := offset]))
  {
    hide PeersOf, CommitKnown, Represents, LeaderOk, CandidateOk, VoteOk;
  }

  lemma NoteInstalledOk(p: P.Proto, n: NodeId, s: NodeState, q: NodeId, installed: LogIndex)
    requires NodeOk(p, n, s) && s.role == Leader && AckOk(p, q, s.term, installed)
    ensures NodeOk(p, n, NoteInstalled(s, q, installed)) && NoteInstalled(s, q, installed).role == Leader
  {
    hide PeersOf, CommitKnown, Represents, Matched, P.Acked;
    MatchedOk(p, n, s, q, installed);
  }

  lemma InstallRespFacts(p: P.Proto, n: NodeId, m: Message)
    requires m.InstallSnapshotResp? && MessageOk(p, n, m) && m.success
    ensures AckOk(p, m.responder, m.term, m.installedIndex)
  {
  }

  lemma VoteRespOk(p: P.Proto, n: NodeId, s: NodeState, m: Message) returns (p': P.Proto)
    requires P.Inv(p) && NodeOk(p, n, s) && m.RequestVoteResp? && MessageOk(p, n, m)
    ensures Follows(p, p', n, HandleRequestVoteResp(s, m).state)
    ensures ActionsOk(p', HandleRequestVoteResp(s, m).state, HandleRequestVoteResp(s, m).actions)
  {
    hide P.Inv, PeersOf, P.Moved, CommitKnown, Represents, BecomeLeader, HeartbeatTick, ActionOk, LeaderOk;
    p' := p;
    P.NothingMoves(p, n);
    if s.role == Candidate && m.term == s.term && m.granted {
      var s1 := s.(votes := s.votes + {m.voter});
      if QuorumSize(s.peers) <= |s1.votes| {
        p' := BecomeLeaderOk(p, n, s1);
        HeartbeatOk(p', n, BecomeLeader(s1));
      }
    }
  }

  // ---------- handing entries to the application ----------

  /** Exactly the non-empty committed entries past `lastApplied`, in order. */
  function Pending(full: seq<LogEntry>, applied: nat, commit: nat): seq<Action>
    requires commit <= |full|
    decreases commit - applied
  {
    if commit <= applied then []
    else (if full[applied].payload == [] then [] else [Apply(full[applied])]) + Pending(full, applied + 1, commit)
  }

  lemma {:induction false} DrainIsPending(l: Log, full: seq<LogEntry>, applied: nat, commit: nat)
    requires Represents(l, full) && l.baseIndex <= applied && commit <= |full|
    ensures DrainFrom(l, applied, commit) == Pending(full, applied, commit)
    decreases commit - applied
  {
    hide Represents, Get;
    if applied < commit {
      RepresentsGet(l, full, applied + 1);
      DrainIsPending(l, full, applied + 1, commit);
    }
  }

  lemma {:induction false} PendingFrom(full: seq<LogEntry>, applied: nat, commit: nat, a: Action)
    requires commit <= |full| && a in Pending(full, applied, commit)
    ensures a.Apply? && exists k :: applied <= k < commit && full[k] == a.entry
    decreases commit - applied
  {
    if !(full[applied].payload != [] && a == Apply(full[applied])) {
      PendingFrom(full, applied + 1, commit, a);
    }
  }

  lemma CommittedDelivers(p: P.Proto, full: seq<LogEntry>, c: nat, t: Term, k: nat)
    requires CommitKnown(p, full, c, t) && k < c && Indexed(full)
    ensures DeliveryOk(p, t, full[k])
  {
    var u: Term, i: nat :| CommitBy(p, full, c, t, u, i);
    P.AgreeAt(full, p.logs[u], c, k);
    assert DeliveredBy(p, t, full[k], u, i);
  }

  lemma DrainOk(p: P.Proto, n: NodeId, s: NodeState)
    requires NodeOk(p, n, s)
    ensures NodeOk(p, n, Drain(s).state) && ActionsOk(p, Drain(s).state, Drain(s).actions)
  {
    hide PeersOf, CommitKnown, Represents, DrainFrom, DeliveryOk;
    var full := p.full[n];
    DrainIsPending(s.log, full, s.lastApplied, s.commitIndex);
    assert Indexed(full) by { RepresentsIndexed(s.log, full); }
    forall a | a in Drain(s).actions ensures ActionOk(p, Drain(s).state, a) {
      PendingFrom(full, s.lastApplied, s.commitIndex, a);
      var k :| s.lastApplied <= k < s.commitIndex && full[k] == a.entry;
      CommittedDelivers(p, full, s.commitIndex, s.term, k);
    }
  }

  lemma RepresentsIndexed(l: Log, full: seq<LogEntry>)
    requires Represents(l, full)
    ensures Indexed(full)
  {
  }

  // ---------- events ----------

  lemma DispatchOk(p: P.Proto, n: NodeId, s: NodeState, m: Message, progress: nat) returns (p': P.Proto)
    requires P.Inv(p) && NodeOk(p, n, s) && MessageOk(p, n, m) && m.Sender() != n && m.term <= s.term
    ensures Follows(p, p', n, Dispatch(s, m, progress).state)
    ensures ActionsOk(p', Dispatch(s, m, progress).state, Dispatch(s, m, progress).actions)
  {
    hide P.Inv, NodeOk, P.Moved, ActionsOk, HandleRequestVote, HandleRequestVoteResp, HandleAppendEntries,
      HandleAppendEntriesResp, HandleInstallSnapshot, HandleInstallSnapshotResp, AppendOk, InstallOk;
    p' := p;
    P.NothingMoves(p, n);
    match m
    case RequestVote(_, _, _, _) => p' := VoteOkAfter(p, n, s, m);
    case RequestVoteResp(_, _, _) => p' := VoteRespOk(p, n, s, m);
    case AppendEntries(_, _, _, _, _, _) => p' := HandleAppendOk(p, n, s, m);
    case AppendEntriesResp(_, _, _, _) => AppendRespOk(p, n, s, m);
    case InstallSnapshot(_, _, _, _, _, _, _) => p' := HandleInstallOk(p, n, s, m, progress);
    case InstallSnapshotResp(_, _, _, _, _) => InstallRespOk(p, n, s, m);
  }

  lemma OnMessageOk(p: P.Proto, n: NodeId, s: NodeState, m: Message, progress: nat) returns (p': P.Proto)
    requires P.Inv(p) && NodeOk(p, n, s) && MessageOk(p, n, m)
    ensures Follows(p, p', n, OnMessage(s, m, progress).state)
    ensures ActionsOk(p', OnMessage(s, m, progress).state, OnMessage(s, m, progress).actions)
  {
    hide P.Inv, P.Moved, MessageOk, Dispatch, StepDown, Represents, CommitKnown, LeaderOk, CandidateOk, DrainFrom;
    p' := p;
    P.NothingMoves(p, n);
    if !Ignored(s, m) {
      var s1 := s;
      if s.term < m.term {
        p' := StepDownOk(p, n, s, m.term);
        s1 := StepDown(s, m.term);
        StepDownTerm(s, m.term);
        MovedExtends(p, p', n);
        MessageStays(p, p', n, m);
      }
      var p1 := p';
      p' := DispatchOk(p1, n, s1, m, progress);
      FollowsTrans(p, p1, p', n, s1, Dispatch(s1, m, progress).state);
      DrainOk(p', n, Dispatch(s1, m, progress).state);
      DrainActions(p', Dispatch(s1, m, progress));
    }
  }

  lemma StepDownTerm(s: NodeState, t: Term)
    requires s.term < t
    ensures StepDown(s, t).term == t
  {
  }

  /** Draining changes nothing the other actions depend on. */
  lemma DrainActions(p: P.Proto, r: Step)
    requires ActionsOk(p, r.state, r.actions)
    ensures ActionsOk(p, Drain(r.state).state, r.actions)
  {
    forall a | a in r.actions ensures ActionOk(p, Drain(r.state).state, a) { assert ActionOk(p, r.state, a); }
  }

  lemma TimeoutOk(p: P.Proto, n: NodeId, s: NodeState) returns (p': P.Proto)
    requires P.Inv(p) && NodeOk(p, n, s)
    ensures Follows(p, p', n, ElectionTimeout(s).state)
    ensures ActionsOk(p', ElectionTimeout(s).state, ElectionTimeout(s).actions)
  {
    hide P.Inv, P.Moved, Represents, CommitKnown, LeaderOk, BecomeLeader, DrainFrom, HeartbeatTick, LastIndex, LastTerm,
         PersistHard;
    p' := p;
    P.NothingMoves(p, n);
    if s.role != Leader {
      p' := CampaignOk(p, n, s);
      var c := Campaign(s);
      CampaignKeeps(s);
      if s.peers == [] {
        var p1 := p';
        p' := BecomeLeaderOk(p1, n, c);
        var l := BecomeLeader(c);
        LeadsInTerm(c);
        FollowsTrans(p, p1, p', n, c, l);
        HeartbeatOk(p', n, l);
        DrainOk(p', n, l);
        DrainActions(p', Step(l, HeartbeatTick(l)));
      }
    }
  }

  lemma CampaignKeeps(s: NodeState)
    ensures var c := Campaign(s);
            c.log == s.log && c.me == s.me && c.term == s.term + 1 && c.peers == s.peers && c.votes == {s.me} &&
            c.role == Candidate
  {
  }

  lemma ProposeOk(p: P.Proto, n: NodeId, s: NodeState, payload: seq<byte>) returns (p': P.Proto)
    requires P.Inv(p) && NodeOk(p, n, s)
    ensures var r := Propose(s, payload).1;
            Follows(p, p', n, r.state) && ActionsOk(p', r.state, r.actions) &&
            ActionsOk(p', r.state, HeartbeatTick(r.state))
  {
    hide P.Inv, P.Moved, Represents, CommitKnown, LeaderOk, DrainFrom, HeartbeatTick, Recompute, AppendLocal;
    p' := p;
    P.NothingMoves(p, n);
    HeartbeatOk(p, n, s);
    if s.role == Leader {
      p' := AppendLocalOk(p, n, s, payload);
      var s1 := AppendLocal(s, payload);
      AppendLocalRole(s, payload);
      RecomputeCommits(p', n, s1);
      DrainOk(p', n, Recompute(s1));
      HeartbeatOk(p', n, Drain(Recompute(s1)).state);
    }
  }

  lemma AppendLocalRole(s: NodeState, payload: seq<byte>)
    ensures AppendLocal(s, payload).role == s.role
  {
  }

  lemma TakeSnapshotOk(p: P.Proto, n: NodeId, s: NodeState, data: seq<byte>, through: Option<LogIndex>)
    requires NodeOk(p, n, s) && TakeSnapshot(s, data, through).Some?
    ensures NodeOk(p, n, TakeSnapshot(s, data, through).value.0)
    ensures var (s', snap) := TakeSnapshot(s, data, through).value;
            s.log.baseIndex < snap.lastIndex <= s.commitIndex && s'.log.baseIndex == snap.lastIndex &&
            s'.log.baseTerm == snap.lastTerm
  {
    hide PeersOf, CommitKnown, Represents, CompactTo, TermAt, LeaderOk, CandidateOk;
    var (s', snap) := TakeSnapshot(s, data, through).value;
    RepresentsGet(s.log, p.full[n], snap.lastIndex);
    RepresentsCompact(s.log, p.full[n], snap.lastIndex, snap.lastTerm);
    CompactBase(s.log, snap.lastIndex, snap.lastTerm);
  }
}
