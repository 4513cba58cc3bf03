/**
 Each handler of a node, seen from the protocol: the handler's effect on the node is a few protocol
 steps, after which the node, and every message it asks to send, is tied to the new protocol state.
 */
module RaftSteps {
  import opened Basics
  import opened RaftTypes
  import opened RaftLog
  import opened RaftNode
  import opened RaftCluster
  import opened RaftSim
  import opened RaftCommit
  import P = RaftProtocol

  ghost predicate ActionOk(p: P.Proto, s: NodeState, a: Action) {
    match a
    case SendTo(q, m) => MessageOk(p, q, m)
    case Broadcast(m) => forall q :: q in s.peers ==> MessageOk(p, q, m)
    case ResetElectionTimer => true
    case Apply(e) => DeliveryOk(p, s.term, e)
    case SendSnapshot(q) => s.role == Leader && q != s.me
  }

  ghost predicate ActionsOk(p: P.Proto, s: NodeState, actions: seq<Action>) {
    forall a :: a in actions ==> ActionOk(p, s, a)
  }

  /** The protocol can follow the node from `p` to `p'`. */
  ghost predicate Follows(p: P.Proto, p': P.Proto, n: NodeId, s: NodeState) {
    P.Inv(p') && P.Moved(p, p', n) && NodeOk(p', n, s)
  }

  lemma FollowsTrans(p: P.Proto, p': P.Proto, p'': P.Proto, n: NodeId, s: NodeState, s': NodeState)
    requires P.Inv(p) && Follows(p, p', n, s) && Follows(p', p'', n, s')
    requires p'.logs == p.logs || s'.term == s.term
    ensures Follows(p, p'', n, s')
  {
    P.MovedTrans(p, p', p'', n);
  }

  // ---------- single facts out of the protocol's invariant ----------

  lemma BallotFacts(p: P.Proto, k: (NodeId, Term))
    requires P.Inv(p) && k in p.ballots
    ensures k.0 in p.members && k.0 in p.term && k.1 <= p.term[k.0] && P.Position(p, p.ballots[k])
  {
  }

  lemma FullFacts(p: P.Proto, n: NodeId)
    requires P.Inv(p) && n in p.members
    ensures n in p.full && n in p.term && P.Traced(p, p.full[n])
  {
  }

  lemma LeaderFacts(p: P.Proto, t: Term)
    requires P.Inv(p) && t in p.leaders
    ensures t in p.logs && P.Traced(p, p.logs[t])
    ensures p.leaders[t] in p.term && t <= p.term[p.leaders[t]]
    ensures p.leaders[t] in p.full && (p.term[p.leaders[t]] == t ==> p.full[p.leaders[t]] == p.logs[t])
  {
  }

  lemma InvShape(p: P.Proto)
    requires P.Inv(p)
    ensures P.Shape(p)
  {
  }

  // ---------- terms and votes ----------

  lemma StepDownOk(p: P.Proto, n: NodeId, s: NodeState, t: Term) returns (p': P.Proto)
    requires P.Inv(p) && NodeOk(p, n, s) && s.term < t
    ensures Follows(p, p', n, StepDown(s, t))
    ensures p' == P.Bump(p, n, t)
  {
    hide P.Inv;
    p' := P.Bump(p, n, t);
    InvShape(p);
    P.BumpKeepsInv(p, n, t);
    P.BumpMoves(p, n, t);
    CommitKnownStays(p, p', p.full[n], s.commitIndex, s.term, t);
    if (n, t) in p.ballots { BallotFacts(p, (n, t)); }
  }

  lemma VoteStep(p: P.Proto, n: NodeId, s: NodeState, b: P.Ballot)
    requires P.Inv(p) && NodeOk(p, n, s) && s.votedFor == None && P.CanVote(p, n, b) && s.role != Candidate
    ensures Follows(p, P.Vote(p, n, b), n, s.(votedFor := Some(b.candidate)))
  {
    hide P.Inv;
    var p' := P.Vote(p, n, b);
    P.VoteKeepsInv(p, n, b);
    InvShape(p);
    P.VoteMoves(p, n, b);
    CommitKnownStays(p, p', p.full[n], s.commitIndex, s.term, s.term);
    if s.role == Leader { LeaderStays(p, p', n, s.term, s.matchIndex, s.nextIndex, |p.full[n]|); }
  }

  lemma VoteOkAfter(p: P.Proto, n: NodeId, s: NodeState, m: Message) returns (p': P.Proto)
    requires P.Inv(p) && NodeOk(p, n, s) && m.RequestVote? && MessageOk(p, n, m) && m.term <= s.term
    ensures Follows(p, p', n, HandleRequestVote(s, m).state)
    ensures ActionsOk(p', HandleRequestVote(s, m).state, HandleRequestVote(s, m).actions)
  {
    hide P.Inv, P.Moved, PeersOf, CommitKnown, LeaderOk;
    var r := HandleRequestVote(s, m);
    p' := p;
    P.NothingMoves(p, n);
    RepresentsEnd(s.log, p.full[n]);
    if r.state.votedFor != s.votedFor {
      var b := P.Ballot(m.candidate, m.lastLogIndex, m.lastLogTerm);
      BallotFacts(p, (m.candidate, m.term));
      VoteStep(p, n, s, b);
      p' := P.Vote(p, n, b);
    }
  }

  lemma CampaignOk(p: P.Proto, n: NodeId, s: NodeState) returns (p': P.Proto)
    requires P.Inv(p) && NodeOk(p, n, s)
    ensures Follows(p, p', n, Campaign(s))
    ensures MessageOk(p', n, RequestVote(s.term + 1, n, LastIndex(s.log), LastTerm(s.log)))
  {
    hide P.Inv, P.Moved, PeersOf, CommitKnown, LeaderOk, Represents, WithoutHardState, P.Traced, LastIndex, LastTerm;
    var full := p.full[n];
    RepresentsEnd(s.log, full);
    var p1 := StepDownOk(p, n, s, s.term + 1);
    var b := P.Ballot(n, |full|, P.EndTerm(full));
    assert P.CanVote(p1, n, b) by { EndPosition(p1, n); }
    var s1 := StepDown(s, s.term + 1);
    VoteStep(p1, n, s1, b);
    p' := P.Vote(p1, n, b);
    FollowsTrans(p, p1, p', n, s1, s1.(votedFor := Some(n)));
    assert s.term + 1 in p.leaders ==> p.leaders[s.term + 1] != n by {
      if s.term + 1 in p.leaders { LeaderFacts(p, s.term + 1); }
    }
  }

  lemma EndPosition(p: P.Proto, n: NodeId)
    requires P.Inv(p) && n in p.members
    ensures n in p.full && P.Position(p, P.Ballot(n, |p.full[n]|, P.EndTerm(p.full[n])))
    ensures P.PositionLog(p, P.Ballot(n, |p.full[n]|, P.EndTerm(p.full[n]))) == p.full[n]
  {
    hide P.Inv;
    FullFacts(p, n);
  }

  // ---------- winning an election, writing as leader ----------

  /** A quorum of votes for a candidate means no one else leads its term. */
  lemma WinsAlone(p: P.Proto, n: NodeId, s: NodeState)
    requires P.Inv(p) && NodeOk(p, n, s) && s.role == Candidate && QuorumSize(s.peers) <= |s.votes|
    ensures P.CanElect(p, n, s.votes)
  {
    hide P.Inv, CommitKnown, Represents;
    InvShape(p);
    PeersCount(s.peers, p.members, n);
    assert P.WonBy(p, s.term, n, s.votes);
    EndPosition(p, n);
    if s.term in p.leaders {
      var q := Winners(p, s.term);
      P.ElectionSafety(p, s.term, n, s.votes, p.leaders[s.term], q);
    }
  }

  lemma Winners(p: P.Proto, t: Term) returns (q: set<NodeId>)
    requires P.Inv(p) && t in p.leaders
    ensures P.WonBy(p, t, p.leaders[t], q)
  {
    q :| P.WonBy(p, t, p.leaders[t], q);
  }

  /** The node's log and term are those of the protocol's leader of that term. */
  lemma LeaderLog(p: P.Proto, n: NodeId, s: NodeState)
    requires P.Inv(p) && NodeOk(p, n, s) && s.role == Leader
    ensures s.term in p.logs && p.logs[s.term] == p.full[n]
  {
    hide P.Inv;
    LeaderFacts(p, s.term);
  }

  /** Acknowledging one's own log as its leader. */
  lemma SelfAck(p: P.Proto, n: NodeId, s: NodeState)
    requires P.Inv(p) && NodeOk(p, n, s.(role := Follower))
    requires s.role == Leader && s.term in p.leaders && p.leaders[s.term] == n
    requires forall q :: q in s.matchIndex ==> s.matchIndex[q] <= |p.full[n]|
    requires forall q :: q in s.matchIndex && 0 < s.matchIndex[q] ==> P.Acked(p, q, s.term, s.matchIndex[q])
    requires forall q :: q in s.nextIndex ==> 1 <= s.nextIndex[q] <= |p.full[n]| + 1
    ensures Follows(p, P.AckTo(p, n, |p.full[n]|), n, s)
  {
    hide P.Inv, PeersOf, Represents;
    var last := |p.full[n]|;
    LeaderFacts(p, s.term);
    P.AckKeepsInv(p, n, last);
    InvShape(p);
    P.AckMoves(p, n, last);
    var p' := P.AckTo(p, n, last);
    CommitKnownStays(p, p', p.full[n], s.commitIndex, s.term, s.term);
    forall q | q in s.matchIndex && 0 < s.matchIndex[q] ensures P.Acked(p', q, s.term, s.matchIndex[q]) {
      P.AckedStays(p, p', q, s.term, s.matchIndex[q]);
    }
  }

  lemma WinOk(p: P.Proto, n: NodeId, s: NodeState) returns (p': P.Proto)
    requires P.Inv(p) && NodeOk(p, n, s) && s.role == Candidate && QuorumSize(s.peers) <= |s.votes|
    ensures Follows(p, p', n, s.(role := Leader, matchIndex := map[], nextIndex := map[]))
  {
    hide P.Inv, PeersOf, Represents, P.Moved;
    WinsAlone(p, n, s);
    InvShape(p);
    var p1 := P.Elect(p, n);
    P.ElectKeepsInv(p, n, s.votes);
    P.ElectMoves(p, n, s.votes);
    assert P.Extends(p, p1) by { assert P.Moved(p, p1, n); MovedExtends(p, p1, n); }
    CommitKnownStays(p, p1, p.full[n], s.commitIndex, s.term, s.term);
    var s1 := s.(role := Leader, matchIndex := map[], nextIndex := map[]);
    SelfAck(p1, n, s1);
    p' := P.AckTo(p1, n, |p.full[n]|);
    P.MovedTrans(p, p1, p', n);
  }

  lemma MovedExtends(p: P.Proto, p': P.Proto, n: NodeId)
    requires P.Moved(p, p', n)
    ensures P.Extends(p, p')
  {
  }

  lemma RepresentsPush(l: Log, full: seq<LogEntry>, e: LogEntry)
    requires Represents(l, full) && e.index == |full| + 1
    ensures Represents(l.(entries := l.entries + [e]), full + [e])
  {
    assert (full + [e])[l.baseIndex..] == full[l.baseIndex..] + [e];
  }

  lemma WriteStep(p: P.Proto, n: NodeId, s: NodeState, e: LogEntry)
    requires P.Inv(p) && NodeOk(p, n, s) && s.role == Leader && P.CanWrite(p, n, e)
    ensures Follows(p, P.Write(p, n, e), n, s.(role := Follower, log := s.log.(entries := s.log.entries + [e])))
    ensures LeaderOk(P.Write(p, n, e), n, s.term, s.matchIndex, s.nextIndex, |p.full[n]|)
  {
    hide P.Inv, PeersOf, P.Moved, Represents, P.Traced;
    var full := p.full[n];
    var p1 := P.Write(p, n, e);
    P.WriteKeepsInv(p, n, e);
    WriteMovesFrom(p, n, e);
    MovedExtends(p, p1, n);
    RepresentsPush(s.log, full, e);
    CommitKnownStays(p, p1, full, s.commitIndex, s.term, s.term);
    assert P.Agree(full + [e], full, s.commitIndex);
    CommitKnownMoves(p1, full, full + [e], s.commitIndex, s.term);
    LeaderStays(p, p1, n, s.term, s.matchIndex, s.nextIndex, |full|);
  }

  lemma AppendLocalOk(p: P.Proto, n: NodeId, s: NodeState, payload: seq<byte>) returns (p': P.Proto)
    requires P.Inv(p) && NodeOk(p, n, s) && s.role == Leader
    ensures Follows(p, p', n, AppendLocal(s, payload))
  {
    hide P.Inv, PeersOf, P.Moved, Represents, CommitKnown;
    var last := |p.full[n]|;
    RepresentsEnd(s.log, p.full[n]);
    var e := LogEntry(s.term, last + 1, payload);
    WriteStep(p, n, s, e);
    var p1 := P.Write(p, n, e);
    var s1 := AppendLocal(s, payload);
    SelfAck(p1, n, s1);
    p' := P.AckTo(p1, n, last + 1);
    assert P.Moved(p, p', n) by { InvShape(p); P.MovedTrans(p, p1, p', n); }
  }

  lemma WriteMovesFrom(p: P.Proto, n: NodeId, e: LogEntry)
    requires P.Inv(p) && P.CanWrite(p, n, e)
    ensures P.Moved(p, P.Write(p, n, e), n)
  {
    P.WriteMoves(p, n, e);
  }

  lemma BecomeLeaderOk(p: P.Proto, n: NodeId, s: NodeState) returns (p': P.Proto)
    requires P.Inv(p) && NodeOk(p, n, s) && s.role == Candidate && QuorumSize(s.peers) <= |s.votes|
    ensures Follows(p, p', n, BecomeLeader(s))
  {
    hide P.Inv, PeersOf, P.Moved, CommitKnown, Represents;
    var s1 := s.(role := Leader, leaderHint := Some(s.me), matchIndex := map[], nextIndex := map[],
                 snapshotCursor := map[]);
    var p1 := WinOk(p, n, s);
    p' := p1;
    if s.noopOnElect {
      p' := AppendLocalOk(p1, n, s1, []);
      FollowsTrans(p, p1, p', n, s1, AppendLocal(s1, []));
    }
    var s2 := Claim(s);
    assert RepresentsLast(s2.log, p'.full[n]) by { RepresentsEnd(s2.log, p'.full[n]); }
    RecomputeCommits(p', n, TrackPeers(s2));
  }

  ghost predicate RepresentsLast(l: Log, full: seq<LogEntry>) {
    LastIndex(l) == |full|
  }

  // ---------- what a leader sends ----------

  lemma BuildAppendOk(p: P.Proto, n: NodeId, s: NodeState, q: NodeId)
    requires NodeOk(p, n, s) && s.role == Leader && q != n && s.log.baseIndex < At(s.nextIndex, q, 1)
    requires s.term in p.logs && p.logs[s.term] == p.full[n]
    ensures MessageOk(p, q, BuildAppend(s, q))
  {
    hide PeersOf, Represents, CommitKnown, SliceBounded, TermAt, CommitPoint, P.Acked;
    var full := p.full[n];
    var next := At(s.nextIndex, q, 1);
    RepresentsGet(s.log, full, next - 1);
    RepresentsSlice(s.log, full, next, MAX_APPEND_ENTRIES, MAX_APPEND_BYTES);
    CommitIsPoint(p, full, s.commitIndex, s.term);
  }

  lemma ReplicateOk(p: P.Proto, n: NodeId, s: NodeState, q: NodeId)
    requires P.Inv(p) && NodeOk(p, n, s) && s.role == Leader && q != n
    ensures ActionOk(p, s, ReplicateTo(s, q))
  {
    hide P.Inv, PeersOf, Represents, CommitKnown, BuildAppend, MessageOk;
    LeaderLog(p, n, s);
    if s.log.baseIndex < At(s.nextIndex, q, 1) {
      BuildAppendOk(p, n, s, q);
    }
  }

  lemma CommitIsPoint(p: P.Proto, full: seq<LogEntry>, c: nat, t: Term)
    requires CommitKnown(p, full, c, t)
    ensures CommitPoint(p, c, t)
  {
    if c != 0 {
      var u: Term, i: nat :| CommitBy(p, full, c, t, u, i);
    }
  }

  lemma HeartbeatOk(p: P.Proto, n: NodeId, s: NodeState)
    requires P.Inv(p) && NodeOk(p, n, s)
    ensures ActionsOk(p, s, HeartbeatTick(s))
  {
    hide P.Inv, Represents, CommitKnown, ReplicateTo, ActionOk;
    if s.role == Leader {
      forall a | a in HeartbeatTick(s) ensures ActionOk(p, s, a) {
        var i :| 0 <= i < |s.peers| && a == ReplicateTo(s, s.peers[i]);
        ReplicateOk(p, n, s, s.peers[i]);
      }
    }
  }
}
