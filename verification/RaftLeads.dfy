/**
 What nodes know of their leader, and what a leader writes: a hint names the one leader of the node's
 term; a leader that starts its term with an empty entry can commit all of its log; a proposal is
 answered with the index it got; a heartbeat reaches every peer; and when election timers start over.
 */
module RaftLeads {
  import opened Basics
  import opened RaftTypes
  import opened RaftLog
  import opened RaftNode
  import opened RaftCluster
  import P = RaftProtocol
  import opened RaftSim
  import opened RaftSteps
  import opened RaftCommit
  import opened RaftNext
  import opened RaftSafety
  import opened RaftSettled
  import opened RaftElect
  import opened RaftCatchUp

  // ---------- single operations ----------

  /** A proposal is refused, with nothing changed, or becomes the last entry, at the index in the answer. */
  lemma ProposesAt(s: NodeState, payload: seq<byte>, full: seq<LogEntry>)
    requires Represents(s.log, full)
    ensures var (outcome, r) := Propose(s, payload);
            if s.role == Leader then
              outcome == Accepted(|full| + 1) && Represents(r.state.log, full + [LogEntry(s.term, |full| + 1, payload)])
            else outcome == NotLeader(s.leaderHint) && r == Step(s, [])
  {
    hide Represents, Recompute, DrainFrom, LastIndex;
    RepresentsEnd(s.log, full);
    RepresentsPush(s.log, full, LogEntry(s.term, |full| + 1, payload));
    RecomputeSame(AppendLocal(s, payload));
  }

  /** A leader's heartbeat is one message to every peer; nobody else sends any. */
  lemma BeatsAll(s: NodeState)
    ensures |HeartbeatTick(s)| == if s.role == Leader then |s.peers| else 0
    ensures s.role == Leader ==> forall q :: q in s.peers ==> ReplicateTo(s, q) in HeartbeatTick(s)
  {
    hide ReplicateTo;
    if s.role == Leader {
      forall q | q in s.peers ensures ReplicateTo(s, q) in HeartbeatTick(s) {
        var i :| 0 <= i < |s.peers| && s.peers[i] == q;
        assert HeartbeatTick(s)[i] == ReplicateTo(s, q);
      }
    }
  }

  // ---------- what fits a message ----------

  function PayloadBytes(es: seq<LogEntry>): nat {
    if es == [] then 0 else PayloadBytes(es[..|es| - 1]) + |es[|es| - 1].payload|
  }

  lemma {:induction false} FitLongest(es: seq<LogEntry>, i: nat, maxEntries: nat, maxBytes: nat)
    requires i <= |es| && (1 < i ==> i <= maxEntries && PayloadBytes(es[..i]) <= maxBytes)
    ensures var n := FitCount(es, i, PayloadBytes(es[..i]), maxEntries, maxBytes);
            && i <= n <= |es| && (1 < n ==> n <= maxEntries && PayloadBytes(es[..n]) <= maxBytes)
            && (n < |es| ==> 0 < n && (maxEntries <= n || maxBytes < PayloadBytes(es[..n + 1])))
    decreases |es| - i
  {
    if i < |es| {
      hide PayloadBytes;
      BytesPush(es, i);
      if i == 0 || (i < maxEntries && PayloadBytes(es[..i + 1]) <= maxBytes) {
        FitLongest(es, i + 1, maxEntries, maxBytes);
      }
    }
  }

  lemma BytesPush(es: seq<LogEntry>, i: nat)
    requires i < |es|
    ensures PayloadBytes(es[..i + 1]) == PayloadBytes(es[..i]) + |es[i].payload|
  {
    assert es[..i + 1][..i] == es[..i];
  }

  /**
   A message carries the longest run of entries from `start` on that is within both limits, but at least
   one entry if there is any.
   */
  lemma SliceLongest(l: Log, start: LogIndex, maxEntries: nat, maxBytes: nat)
    ensures var rest, out := EntriesFrom(l, start), SliceBounded(l, start, maxEntries, maxBytes);
            && out <= rest && (rest != [] ==> out != [])
            && (1 < |out| ==> |out| <= maxEntries && PayloadBytes(out) <= maxBytes)
            && (|out| < |rest| ==> maxEntries <= |out| || maxBytes < PayloadBytes(rest[..|out| + 1]))
  {
    hide EntriesFrom, FitCount;
    var rest := EntriesFrom(l, start);
    assert rest[..0] == [];
    FitLongest(rest, 0, maxEntries, maxBytes);
  }

  // ---------- terms and timers ----------

  /**
   A message from a stranger, of a term too far ahead or of the last term there is changes nothing; any other
   leaves the node in the later of the two terms.
   */
  lemma TermMoves(s: NodeState, m: Message, progress: nat)
    ensures var r := OnMessage(s, m, progress);
            if m.Sender() in s.peers && m.term != MAX_TERM && m.term - s.term <= MAX_TERM_JUMP
            then r.state.term == Max(s.term, m.term)
            else r == Step(s, [])
  {
    hide Dispatch, Drain, WithoutHardState;
    if !Ignored(s, m) {
      var s1 := if s.term < m.term then StepDown(s, m.term) else s;
      DispatchTerm(s1, m, progress);
      DrainKeepsTerm(Dispatch(s1, m, progress).state);
    }
  }

  lemma DispatchTerm(s: NodeState, m: Message, progress: nat)
    requires m.term <= s.term
    ensures Dispatch(s, m, progress).state.term == s.term
  {
    hide Recompute, Consistent, AppendAt, EntriesFrom, Install, KeepsSuffix, LastIndex, LastTerm, WithoutHardState,
         HeartbeatTick, ReplicateTo;
    match m
    case RequestVoteResp(_, _, _) => LeadsInTerm(s.(votes := s.votes + {m.voter}));
    case AppendEntriesResp(_, _, _, _) => RecomputeSame(NoteMatch(s, m.responder, m.matchIndex));
    case InstallSnapshotResp(_, _, _, _, _) => RecomputeSame(NoteInstalled(s, m.responder, m.installedIndex));
    case _ =>
  }

  predicate FromLeader(m: Message) {
    m.AppendEntries? || m.InstallSnapshot?
  }

  /**
   The election timer starts over on a message that is not ignored exactly if it brings a later term,
   comes from the leader of the term, or is granted a vote.
   */
  lemma TimerRestarts(s: NodeState, m: Message, progress: nat)
    ensures ResetElectionTimer in OnMessage(s, m, progress).actions <==>
            && !Ignored(s, m)
            && (|| s.term < m.term
                || (s.term == m.term && FromLeader(m))
                || (m.RequestVote? && MayVote(s, m.candidate, m.term) && Reaches(m.lastLogTerm, m.lastLogIndex, s.log)))
  {
    hide Dispatch, DrainFrom, LastIndex, LastTerm, StepDown;
    if !Ignored(s, m) {
      var s1 := if s.term < m.term then StepDown(s, m.term) else s;
      var r := Dispatch(s1, m, progress);
      DrainSends(r.state.log, r.state.lastApplied, r.state.commitIndex);
      if m.term <= s.term { DispatchTimer(s, m, progress); }
    }
  }

  lemma DispatchTimer(s: NodeState, m: Message, progress: nat)
    requires m.term <= s.term
    ensures ResetElectionTimer in Dispatch(s, m, progress).actions <==>
            || (s.term == m.term && FromLeader(m))
            || (m.RequestVote? && MayVote(s, m.candidate, m.term) && Reaches(m.lastLogTerm, m.lastLogIndex, s.log))
  {
    hide Recompute, BecomeLeader, AcceptEntries, InstallDone, Follow, LastIndex, LastTerm, PersistHard, ReplicateTo,
         BackOff, NoteMatch, NoteInstalled, HeartbeatTick;
    SendsOnly();
    match m
    case RequestVoteResp(_, _, _) => BeatsOnly(BecomeLeader(s.(votes := s.votes + {m.voter})));
    case _ =>
  }

  lemma SendsOnly()
    ensures forall s, q :: ReplicateTo(s, q) != ResetElectionTimer
  {
    hide BuildAppend;
  }

  lemma BeatsOnly(s: NodeState)
    ensures ResetElectionTimer !in HeartbeatTick(s)
  {
    hide ReplicateTo;
    SendsOnly();
  }

  // ---------- answers of followers ----------

  /**
   The answer of a follower that is still behind, or does not follow on, is met with the next request at once;
   one that has all of the log is sent nothing.
   */
  lemma GoesOn(l: NodeState, q: NodeId, success: bool, i: LogIndex)
    requires l.role == Leader && q in l.peers && l.term != MAX_TERM && At(l.matchIndex, q, 0) <= LastIndex(l.log)
    ensures var r := OnMessage(l, AppendEntriesResp(l.term, success, q, i), 0);
            if success && At(r.state.matchIndex, q, 0) == LastIndex(l.log) then forall a :: a in r.actions ==> a.Apply?
            else ReplicateTo(r.state, q) in r.actions
  {
    hide LastIndex, DrainFrom, SliceBounded, TermAt, CommitCandidate;
    var m := AppendEntriesResp(l.term, success, q, i);
    var r := HandleAppendEntriesResp(l, m);
    RecomputeSame(NoteMatch(l, q, i));
    DrainSends(r.state.log, r.state.lastApplied, r.state.commitIndex);
    if !success || At(r.state.matchIndex, q, 0) < LastIndex(l.log) { assert ReplicateTo(r.state, q) in r.actions; }
  }

  /** After a refusal the leader goes back to what the follower says it holds, by one index at least, and not past 1. */
  lemma BacksOff(l: NodeState, q: NodeId, i: LogIndex)
    requires l.role == Leader && q in l.peers && l.term != MAX_TERM
    ensures var next := At(l.nextIndex, q, 1);
            var next' := At(OnMessage(l, AppendEntriesResp(l.term, false, q, i), 0).state.nextIndex, q, 1);
            && 1 <= next' <= i + 1 && (1 < next ==> next' < next)
            && (next' == 1 || next' == i + 1 || next' == next - 1)
  {
    hide DrainFrom, ReplicateTo;
  }

  /**
   A snapshot in parts: progress is remembered and met with the next part; once the peer has installed all of
   it, the next transfer starts from nothing, and what is still missing is sent at once.
   */
  lemma TransferGoesOn(l: NodeState, q: NodeId, progress: nat, i: LogIndex)
    requires l.role == Leader && q in l.peers && l.term != MAX_TERM
    ensures var r := OnMessage(l, InstallSnapshotResp(l.term, true, q, progress, i), 0);
            && (forall x :: x in l.peers && x != q ==>
                  (x in r.state.snapshotCursor <==> x in l.snapshotCursor) &&
                  At(r.state.snapshotCursor, x, 0) == At(l.snapshotCursor, x, 0))
            && (if i == 0 then
                  At(r.state.snapshotCursor, q, 0) == progress && q in r.state.snapshotCursor &&
                  SendSnapshot(q) in r.actions
                else
                  && q !in r.state.snapshotCursor
                  && (At(r.state.matchIndex, q, 0) < LastIndex(l.log) ==> ReplicateTo(r.state, q) in r.actions))
  {
    hide LastIndex, DrainFrom, SliceBounded, TermAt, CommitCandidate;
    var m := InstallSnapshotResp(l.term, true, q, progress, i);
    var r := HandleInstallSnapshotResp(l, m);
    RecomputeSame(NoteInstalled(l, q, i));
    if 0 < i && At(r.state.matchIndex, q, 0) < LastIndex(l.log) { assert ReplicateTo(r.state, q) in r.actions; }
  }

  // ---------- hints ----------

  /** Where a node's hint comes from in one event, `m` being the message it is about, if any. */
  predicate HintFrom(s: NodeState, s': NodeState, m: Option<Message>) {
    || s'.leaderHint == None
    || (s'.role == Leader && s'.leaderHint == Some(s'.me))
    || (s'.leaderHint == s.leaderHint && s'.term == s.term)
    || (m.Some? && FromLeader(m.value) && s'.leaderHint == Some(m.value.leader) && s'.term == m.value.term)
  }

  /** The log of a leader that writes an entry when it is elected: as it was, or one entry of its term longer. */
  ghost predicate OwnEnd(s: NodeState, s': NodeState) {
    s'.role == Leader && s'.noopOnElect ==>
      || (s.role == Leader && s.noopOnElect && s'.term == s.term && s'.log == s.log)
      || exists payload :: s'.log == Pushed(s.log, s'.term, payload)
  }

  function Pushed(l: Log, t: Term, payload: seq<byte>): Log {
    l.(entries := l.entries + [LogEntry(t, LastIndex(l) + 1, payload)])
  }

  lemma LeadKnows(s: NodeState)
    ensures var l := BecomeLeader(s);
            l.role == Leader && l.leaderHint == Some(l.me) && OwnEnd(s, l) && l.term == s.term && l.log == Claim(s).log
  {
    hide Recompute, LastIndex;
    RecomputeSame(TrackPeers(Claim(s)));
    if s.noopOnElect { assert Claim(s).log == Pushed(s.log, s.term, []); }
  }

  /** A message from the leader of the term is followed by a hint at that leader. */
  lemma DispatchKnows(s: NodeState, m: Message, progress: nat)
    requires m.term <= s.term
    ensures var s' := Dispatch(s, m, progress).state;
            && HintFrom(s, s', Some(m)) && OwnEnd(s, s')
            && (FromLeader(m) && m.term == s.term ==> s'.leaderHint == Some(m.leader) && s'.role == Follower)
  {
    hide Recompute, BecomeLeader, Consistent, AppendAt, EntriesFrom, Install, KeepsSuffix, LastIndex, LastTerm,
         WithoutHardState, HeartbeatTick, ReplicateTo, Claim;
    match m
    case RequestVoteResp(_, _, _) => LeadKnows(s.(votes := s.votes + {m.voter}));
    case AppendEntriesResp(_, _, _, _) => RecomputeSame(NoteMatch(s, m.responder, m.matchIndex));
    case InstallSnapshotResp(_, _, _, _, _) => RecomputeSame(NoteInstalled(s, m.responder, m.installedIndex));
    case _ =>
  }

  lemma MessageKnows(s: NodeState, m: Message, progress: nat)
    ensures var s' := OnMessage(s, m, progress).state;
            && HintFrom(s, s', Some(m)) && OwnEnd(s, s')
            && (FromLeader(m) && !Ignored(s, m) && s.term <= m.term ==> s'.leaderHint == Some(m.leader))
  {
    hide Dispatch, DrainFrom, WithoutHardState, LastIndex;
    if !Ignored(s, m) {
      var s1 := if s.term < m.term then StepDown(s, m.term) else s;
      DispatchKnows(s1, m, progress);
    }
  }

  lemma ReactKnows(node: Node, ev: Event, env: Env)
    requires !ev.SnapshotRequest?
    ensures var s' := React(node, ev, env).raft;
            HintFrom(node.raft, s', if ev.Receive? then Some(ev.msg) else None) && OwnEnd(node.raft, s')
  {
    hide OnMessage, BecomeLeader, HeartbeatTick, DrainFrom, Recompute, PersistHard, LastIndex, Claim;
    var s := node.raft;
    match ev
    case Receive(m) =>
      MessageKnows(s, m, 0);
      MessageKnows(s, m, env.progress);
    case Timeout => CampaignKnows(s);
    case Tick =>
    case Submit(payload) =>
      RecomputeSame(AppendLocal(s, payload));
      if s.role == Leader { assert AppendLocal(s, payload).log == Pushed(s.log, s.term, payload); }
  }

  lemma CampaignKnows(s: NodeState)
    ensures var s' := ElectionTimeout(s).state; HintFrom(s, s', None) && OwnEnd(s, s')
  {
    hide BecomeLeader, HeartbeatTick, DrainFrom, WithoutHardState, LastIndex, LastTerm, Claim;
    LeadKnows(Campaign(s));
  }

  // ---------- every run ----------

  ghost predicate Knows(p: P.Proto, s: NodeState) {
    && (s.leaderHint.Some? ==> s.term in p.leaders && p.leaders[s.term] == s.leaderHint.value)
    && (s.role == Leader && s.noopOnElect ==> TermAt(s.log, LastIndex(s.log)) == Some(s.term))
  }

  ghost predicate AllKnow(p: P.Proto, c: Cluster) {
    forall n :: n in c.nodes ==> Knows(p, c.nodes[n].raft)
  }

  lemma PushedEnd(l: Log, t: Term, payload: seq<byte>, full: seq<LogEntry>)
    requires Represents(l, full)
    ensures var l' := Pushed(l, t, payload); TermAt(l', LastIndex(l')) == Some(t)
  {
    hide Represents, LastIndex, TermAt;
    var e := LogEntry(t, |full| + 1, payload);
    RepresentsEnd(l, full);
    RepresentsPush(l, full, e);
    RepresentsEnd(Pushed(l, t, payload), full + [e]);
    RepresentsGet(Pushed(l, t, payload), full + [e], |full| + 1);
    assert (full + [e])[|full|] == e;
  }

  lemma OwnEndIs(p: P.Proto, n: NodeId, s: NodeState, s': NodeState)
    requires NodeOk(p, n, s) && Knows(p, s) && OwnEnd(s, s')
    ensures s'.role == Leader && s'.noopOnElect ==> TermAt(s'.log, LastIndex(s'.log)) == Some(s'.term)
  {
    hide PeersOf, CommitKnown, LeaderOk, CandidateOk, VoteOk, Represents, TermAt, LastIndex, Pushed;
    if s'.role == Leader && s'.noopOnElect &&
       !(s'.term == s.term && s'.log == s.log && s.role == Leader && s.noopOnElect) {
      var payload :| s'.log == Pushed(s.log, s'.term, payload);
      PushedEnd(s.log, s'.term, payload, p.full[n]);
    }
  }

  lemma SnapshotKnows(p: P.Proto, n: NodeId, s: NodeState, data: seq<byte>, through: Option<LogIndex>)
    requires NodeOk(p, n, s) && Knows(p, s) && TakeSnapshot(s, data, through).Some?
    ensures Knows(p, TakeSnapshot(s, data, through).value.0)
  {
    hide PeersOf, CommitKnown, LeaderOk, CandidateOk, VoteOk, Represents, TermAt, LastIndex, CompactTo;
    var full, s' := p.full[n], TakeSnapshot(s, data, through).value.0;
    var cut := match through case Some(t) => Min(t, s.lastApplied) case None => s.lastApplied;
    RepresentsGet(s.log, full, cut);
    RepresentsCompact(s.log, full, cut, TermAt(s.log, cut).value);
    CompactMoves(s.log, cut, TermAt(s.log, cut).value);
    RepresentsEnd(s.log, full);
    RepresentsEnd(s'.log, full);
    RepresentsGet(s.log, full, |full|);
    RepresentsGet(s'.log, full, |full|);
  }

  /** The leader and the log end of a node are untouched by what follows a reaction. */
  predicate SameKnown(s: NodeState, s': NodeState) {
    s'.leaderHint == s.leaderHint && s'.role == s.role && s'.term == s.term && s'.log == s.log &&
    s'.noopOnElect == s.noopOnElect && s'.me == s.me
  }

  lemma {:induction false} PerformKnown(e: Effects, d: Disk, transfer: bool, env: Env, actions: seq<Action>)
    ensures SameKnown(e.raft, Perform(e, d, transfer, env, actions).raft)
    decreases |actions|
  {
    if actions != [] { PerformKnown(PerformOne(e, d, transfer, env, actions[0]), d, transfer, env, actions[1..]); }
  }

  lemma ProcessKnown(node: Node, ev: Event, env: Env)
    ensures SameKnown(React(node, ev, env).raft, Process(node, ev, env).0.raft)
  {
    hide React, Perform, DiskAfter;
    var r := React(node, ev, env);
    var s := if r.flush then r.raft.(pending := []) else r.raft;
    var d := DiskAfter(node.disk, r.saved, if r.flush then r.raft.pending else []);
    PerformKnown(Effects(s, {}, []), d, node.transfer, env, r.actions);
  }

  lemma LeaderSays(p: P.Proto, dst: NodeId, m: Message)
    requires MessageOk(p, dst, m) && FromLeader(m)
    ensures m.term in p.leaders && p.leaders[m.term] == m.leader
  {
    hide CommitPoint;
  }

  lemma LeadsItself(p: P.Proto, n: NodeId, s: NodeState)
    requires NodeOk(p, n, s) && s.role == Leader
    ensures s.me == n && s.term in p.leaders && p.leaders[s.term] == n
  {
    hide PeersOf, CommitKnown, CandidateOk, VoteOk, Represents, P.Acked;
  }

  lemma KnowsOn(p: P.Proto, p': P.Proto, s: NodeState)
    requires Knows(p, s) && P.Extends(p, p')
    ensures Knows(p', s)
  {
    hide TermAt, LastIndex;
  }

  lemma EventKnows(c: Cluster, p: P.Proto, p': P.Proto, n: NodeId, ev: Event, env: Env)
    requires Sim(c, p) && P.Extends(p, p') && Enabled(c, n, ev) && Knows(p, c.nodes[n].raft)
    requires NodeOk(p', n, Process(c.nodes[n], ev, env).0.raft)
    ensures Knows(p', Process(c.nodes[n], ev, env).0.raft)
  {
    hide P.Inv, Sim, NodeOk, MessageOk, P.Extends, Process, React, TermAt, LastIndex, OwnEnd;
    var s, s' := c.nodes[n].raft, Process(c.nodes[n], ev, env).0.raft;
    SimFacts(c, p, n);
    ProcessKnown(c.nodes[n], ev, env);
    var r := React(c.nodes[n], ev, env).raft;
    if ev.SnapshotRequest? {
      RequestKnows(p, n, c.nodes[n], ev, env);
      KnowsOn(p, p', r);
    } else {
      ReactKnows(c.nodes[n], ev, env);
      OwnEndIs(p, n, s, r);
      if s'.role == Leader { LeadsItself(p', n, s'); }
      HintOn(c, p, p', n, s, r, ev);
    }
  }

  lemma RequestKnows(p: P.Proto, n: NodeId, node: Node, ev: Event, env: Env)
    requires ev.SnapshotRequest? && NodeOk(p, n, node.raft) && Knows(p, node.raft)
    ensures Knows(p, React(node, ev, env).raft)
  {
    hide NodeOk, TakeSnapshot, Knows;
    if TakeSnapshot(node.raft, ev.data, ev.through).Some? { SnapshotKnows(p, n, node.raft, ev.data, ev.through); }
  }

  lemma HintOn(c: Cluster, p: P.Proto, p': P.Proto, n: NodeId, s: NodeState, r: NodeState, ev: Event)
    requires Sim(c, p) && P.Extends(p, p') && Enabled(c, n, ev) && Knows(p, s)
    requires HintFrom(s, r, if ev.Receive? then Some(ev.msg) else None)
    requires r.role == Leader && r.leaderHint == Some(r.me) ==> r.term in p'.leaders && p'.leaders[r.term] == r.me
    ensures r.leaderHint.Some? ==> r.term in p'.leaders && p'.leaders[r.term] == r.leaderHint.value
  {
    hide P.Inv, NodesOk, MessageOk, DeliveryOk, TermAt, LastIndex;
    if ev.Receive? && FromLeader(ev.msg) {
      assert MessageOk(p, n, ev.msg) by { assert Packet(n, ev.msg) in c.net; }
      LeaderSays(p, n, ev.msg);
    }
  }

  lemma RestartKnows(p: P.Proto, node: Node, d: Disk, node': Node)
    requires Restarts(node, d, node')
    ensures Knows(p, node'.raft)
  {
    hide Above, CompactTo;
  }

  lemma NextKnows(c: Cluster, c': Cluster, p: P.Proto, p': P.Proto)
    requires Sim(c, p) && Sim(c', p') && P.Extends(p, p') && Next(c, c') && AllKnow(p, c)
    ensures AllKnow(p', c')
  {
    hide Sim, P.Extends, Process, Knows, LeavesDisk, Restarts;
    forall q | q in c.nodes ensures Knows(p', c.nodes[q].raft) { KnowsOn(p, p', c.nodes[q].raft); }
    if n, ev, env :| Enabled(c, n, ev) && c' == AfterEvent(c, n, ev, env) {
      SimFacts(c', p', n);
      EventKnows(c, p, p', n, ev, env);
    } else if n :| CrashStep(c, c', n) {
      var node' :| Restarts(c.nodes[n], c.nodes[n].disk, node') && c' == c.(nodes := c.nodes[n := node']);
      RestartKnows(p', c.nodes[n], c.nodes[n].disk, node');
    } else {
      var n, ev, env :| TornStep(c, c', n, ev, env);
      var d, node' :| LeavesDisk(c.nodes[n], ev, env, d) && Restarts(c.nodes[n], d, node') &&
                      c' == c.(nodes := c.nodes[n := node']);
      RestartKnows(p', c.nodes[n], d, node');
    }
  }

  lemma {:induction false} RunKnows(trace: seq<Cluster>, ps: seq<P.Proto>, i: nat)
    requires Run(trace) && i < |trace| == |ps|
    requires forall k :: 0 <= k < |trace| ==> Sim(trace[k], ps[k])
    requires forall k :: 0 <= k < |trace| - 1 ==> P.Extends(ps[k], ps[k + 1])
    ensures AllKnow(ps[i], trace[i])
    decreases i
  {
    hide Sim, Next, P.Extends, AllKnow;
    if i == 0 {
      StartKnows(trace[0], ps[0]);
    } else {
      RunKnows(trace, ps, i - 1);
      assert Next(trace[i - 1], trace[i - 1 + 1]) && P.Extends(ps[i - 1], ps[i - 1 + 1]);
      NextKnows(trace[i - 1], trace[i], ps[i - 1], ps[i]);
    }
  }

  lemma StartKnows(c: Cluster, p: P.Proto)
    requires Init(c)
    ensures AllKnow(p, c)
  {
  }

  /** In every run, the node a hint names is the only one that ever leads the term of the node that has the hint. */
  lemma HintsLead(trace: seq<Cluster>, i: nat, j: nat, n: NodeId, y: NodeId)
    requires Run(trace) && i < |trace| && j < |trace| && n in trace[i].nodes
    requires trace[i].nodes[n].raft.leaderHint.Some? && Leads(trace[j], y, trace[i].nodes[n].raft.term)
    ensures trace[i].nodes[n].raft.leaderHint == Some(y)
  {
    hide Run, Sim, P.Extends, NodeOk, P.Inv, TermAt, LastIndex;
    var ps := RunSim(trace);
    RunKnows(trace, ps, i);
    SimFacts(trace[j], ps[j], y);
    LeadsItself(ps[j], y, trace[j].nodes[y].raft);
    assert Knows(ps[i], trace[i].nodes[n].raft);
    if i <= j { Later(ps, i, j); } else { Later(ps, j, i); }
    var t := trace[i].nodes[n].raft.term;
    if i <= j { SameLeader(ps[i], ps[j], t); } else { SameLeader(ps[j], ps[i], t); }
  }

  lemma SameLeader(p: P.Proto, p': P.Proto, t: Term)
    requires P.Extends(p, p') && t in p.leaders
    ensures t in p'.leaders && p'.leaders[t] == p.leaders[t]
  {
  }

  /**
   In every run, a leader that writes an empty entry when it is elected has committed all of its log, what
   it got from earlier terms included, once a majority is known to hold it.
   */
  lemma NoopCommits(trace: seq<Cluster>, i: nat, n: NodeId, t: Term)
    requires Run(trace) && i < |trace| && Leads(trace[i], n, t) && trace[i].nodes[n].raft.noopOnElect
    requires var s := trace[i].nodes[n].raft; MajorityHolds(s, trace[i].nodes.Keys, LastIndex(s.log))
    ensures trace[i].nodes[n].raft.commitIndex == LastIndex(trace[i].nodes[n].raft.log)
  {
    hide Run, Sim, P.Extends, TermAt, MajorityHolds, LastIndex;
    var ps := RunSim(trace);
    RunKnows(trace, ps, i);
    assert Knows(ps[i], trace[i].nodes[n].raft);
    AllCommitted(trace, i, n, t);
  }
}
