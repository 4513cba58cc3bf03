/**
 What ties a running cluster to the protocol of `RaftProtocol`: per node, per message and per
 delivery, and how these ties survive when the protocol moves on.
 */
module RaftSim {
  import opened Basics
  import opened RaftTypes
  import opened RaftLog
  import opened RaftNode
  import opened RaftCluster
  import opened RaftDurable
  import P = RaftProtocol

  // ---------- commit knowledge ----------

  /** The first `c` entries of `full` were committed, in a term up to `t`. */
  ghost predicate CommitKnown(p: P.Proto, full: seq<LogEntry>, c: nat, t: Term) {
    c == 0 || exists u: Term, i: nat :: CommitBy(p, full, c, t, u, i)
  }

  ghost predicate CommitBy(p: P.Proto, full: seq<LogEntry>, c: nat, t: Term, u: Term, i: nat) {
    P.Committed(p, u, i) && u <= t && c <= i && P.Agree(full, p.logs[u], c)
  }

  /** Some commit of a term up to `t` reaches index `c`. */
  ghost predicate CommitPoint(p: P.Proto, c: nat, t: Term) {
    c == 0 || exists u: Term, i: nat :: P.Committed(p, u, i) && u <= t && c <= i
  }

  // ---------- nodes ----------

  ghost predicate VoteOk(p: P.Proto, n: NodeId, term: Term, vote: Option<NodeId>) {
    && (vote.Some? <==> (n, term) in p.ballots)
    && (vote.Some? ==> p.ballots[(n, term)].candidate == vote.value)
  }

  ghost predicate CandidateOk(p: P.Proto, n: NodeId, t: Term, votes: set<NodeId>, full: seq<LogEntry>) {
    && 0 < t
    && (n, t) in p.ballots && p.ballots[(n, t)] == P.Ballot(n, |full|, P.EndTerm(full))
    && (forall v :: v in votes ==> v in p.members && (v, t) in p.ballots && p.ballots[(v, t)].candidate == n)
    && (t in p.leaders ==> p.leaders[t] != n)
  }

  ghost predicate LeaderOk(p: P.Proto, n: NodeId, t: Term, matched: map<NodeId, nat>, next: map<NodeId, nat>,
                           last: nat) {
    && t in p.leaders && p.leaders[t] == n
    && P.Acked(p, n, t, last)
    && (forall q :: q in matched ==> matched[q] <= last)
    && (forall q :: q in matched && 0 < matched[q] ==> P.Acked(p, q, t, matched[q]))
    && (forall q :: q in next ==> 1 <= next[q] <= last + 1)
  }

  ghost predicate NodeOk(p: P.Proto, n: NodeId, s: NodeState) {
    && s.me == n && n in p.term && n in p.full && PeersOf(s.peers, p.members, n) && n in p.members
    && s.term == p.term[n]
    && Represents(s.log, p.full[n])
    && VoteOk(p, n, s.term, s.votedFor)
    && s.log.baseIndex <= s.lastApplied <= s.commitIndex <= |p.full[n]|
    && CommitKnown(p, p.full[n], s.commitIndex, s.term)
    && (s.role == Candidate ==> CandidateOk(p, n, s.term, s.votes, p.full[n]))
    && (s.role == Leader ==> LeaderOk(p, n, s.term, s.matchIndex, s.nextIndex, |p.full[n]|))
  }

  // ---------- messages, deliveries ----------

  ghost predicate AppendOk(p: P.Proto, dst: NodeId, m: Message)
    requires m.AppendEntries?
  {
    && m.term in p.leaders && m.term in p.logs && p.leaders[m.term] == m.leader && dst != m.leader
    && m.prevLogIndex + |m.entries| <= |p.logs[m.term]|
    && m.entries == p.logs[m.term][m.prevLogIndex..m.prevLogIndex + |m.entries|]
    && (0 < m.prevLogIndex ==> m.prevLogTerm == p.logs[m.term][m.prevLogIndex - 1].term)
    && CommitPoint(p, m.leaderCommit, m.term)
  }

  ghost predicate InstallOk(p: P.Proto, dst: NodeId, m: Message)
    requires m.InstallSnapshot?
  {
    && m.term in p.leaders && m.term in p.logs && p.leaders[m.term] == m.leader && dst != m.leader
    && 0 < m.lastIndex <= |p.logs[m.term]|
    && m.lastTerm == p.logs[m.term][m.lastIndex - 1].term
    && CommitPoint(p, m.lastIndex, m.term)
  }

  ghost predicate AckOk(p: P.Proto, n: NodeId, t: Term, i: nat) {
    0 < i ==> t in p.logs && i <= |p.logs[t]| && P.Acked(p, n, t, i)
  }

  ghost predicate MessageOk(p: P.Proto, dst: NodeId, m: Message) {
    match m
    case RequestVote(t, c, li, lt) => (c, t) in p.ballots && p.ballots[(c, t)] == P.Ballot(c, li, lt)
    case RequestVoteResp(t, granted, v) =>
      granted ==> v in p.members && (v, t) in p.ballots && p.ballots[(v, t)].candidate == dst
    case AppendEntries(_, _, _, _, _, _) => AppendOk(p, dst, m)
    case AppendEntriesResp(t, success, n, i) => success ==> AckOk(p, n, t, i)
    case InstallSnapshot(_, _, _, _, _, _, _) => InstallOk(p, dst, m)
    case InstallSnapshotResp(t, success, n, _, i) => success ==> AckOk(p, n, t, i)
  }

  ghost predicate DeliveryOk(p: P.Proto, t: Term, e: LogEntry) {
    exists u: Term, i: nat :: DeliveredBy(p, t, e, u, i)
  }

  ghost predicate DeliveredBy(p: P.Proto, t: Term, e: LogEntry, u: Term, i: nat) {
    P.Committed(p, u, i) && u <= t && 0 < e.index <= i && p.logs[u][e.index - 1] == e
  }

  // ---------- disks ----------

  /** At rest, the disk holds the node's hard state, its snapshot, and its log (or a longer one it will trim). */
  ghost predicate DiskRests(s: NodeState, d: Disk) {
    && d.term == s.term && d.votedFor == s.votedFor
    && SnapshotRests(s.log, d.snapshot)
    && ((s.pending == [] && d.log == s.log.entries)
        || (s.pending == [CompactThrough(s.log.baseIndex)] && exists j: nat :: TrimsTo(d.log, j, s.log)))
  }

  /** The stored entries follow each other from `j + 1` on, and past the base they are the log's. */
  ghost predicate TrimsTo(stored: seq<LogEntry>, j: nat, l: Log) {
    j <= l.baseIndex && Contiguous(stored, j + 1) && Above(stored, l.baseIndex) == l.entries
  }

  ghost predicate SnapshotRests(l: Log, snap: Option<Snapshot>) {
    match snap
    case None => l.baseIndex == 0
    case Some(x) => 0 < x.lastIndex && x.lastIndex == l.baseIndex && x.lastTerm == l.baseTerm
  }

  // ---------- the simulation relation ----------

  ghost predicate NodesOk(p: P.Proto, c: Cluster) {
    forall n :: n in c.nodes ==>
      NodeOk(p, n, c.nodes[n].raft) && DiskRests(c.nodes[n].raft, c.nodes[n].disk)
  }

  ghost predicate Sim(c: Cluster, p: P.Proto) {
    && P.Inv(p) && p.members == c.nodes.Keys
    && NodesOk(p, c)
    && (forall x :: x in c.net ==> MessageOk(p, x.dst, x.msg))
    && (forall x :: x in c.delivered ==> DeliveryOk(p, x.term, x.entry))
  }

  // ---------- ties survive ----------

  lemma CommitPointStays(p: P.Proto, p': P.Proto, c: nat, t: Term)
    requires P.Extends(p, p') && CommitPoint(p, c, t)
    ensures CommitPoint(p', c, t)
  {
    if c != 0 {
      var u: Term, i: nat :| P.Committed(p, u, i) && u <= t && c <= i;
      P.CommittedStays(p, p', u, i);
    }
  }

  lemma CommitKnownStays(p: P.Proto, p': P.Proto, full: seq<LogEntry>, c: nat, t: Term, t': Term)
    requires P.Extends(p, p') && CommitKnown(p, full, c, t) && t <= t'
    ensures CommitKnown(p', full, c, t')
  {
    if c != 0 {
      var u: Term, i: nat :| CommitBy(p, full, c, t, u, i);
      P.CommittedStays(p, p', u, i);
      assert p'.logs[u][..c] == p.logs[u][..c];
      assert CommitBy(p', full, c, t', u, i);
    }
  }

  /** Commit knowledge is about the first `c` entries only. */
  lemma CommitKnownMoves(p: P.Proto, a: seq<LogEntry>, b: seq<LogEntry>, c: nat, t: Term)
    requires CommitKnown(p, a, c, t) && P.Agree(b, a, c)
    ensures CommitKnown(p, b, c, t)
  {
    if c != 0 {
      var u: Term, i: nat :| CommitBy(p, a, c, t, u, i);
      assert CommitBy(p, b, c, t, u, i);
    }
  }

  lemma CommitKnownLess(p: P.Proto, full: seq<LogEntry>, c: nat, d: nat, t: Term)
    requires CommitKnown(p, full, c, t) && d <= c
    ensures CommitKnown(p, full, d, t)
  {
    if d != 0 {
      var u: Term, i: nat :| CommitBy(p, full, c, t, u, i);
      P.AgreeLess(full, p.logs[u], c, d);
      assert CommitBy(p, full, d, t, u, i);
    }
  }

  /** A node's committed entries are in the log of its term's leader. */
  lemma CommitInLeaderLog(p: P.Proto, full: seq<LogEntry>, c: nat, t: Term)
    requires P.LeaderCompleteness(p) && CommitKnown(p, full, c, t) && t in p.logs
    ensures P.Agree(full, p.logs[t], c)
  {
    if c != 0 {
      var u: Term, i: nat :| CommitBy(p, full, c, t, u, i);
      P.CommittedInLater(p, u, i, t);
      P.AgreeLess(p.logs[t], p.logs[u], i, c);
    }
  }

  /** An index within both a commit and a log that agrees with the leader is committed there too. */
  lemma CommitFromLeader(p: P.Proto, full: seq<LogEntry>, c: nat, t: Term)
    requires P.LeaderCompleteness(p) && CommitPoint(p, c, t) && t in p.logs && P.Agree(full, p.logs[t], c)
    ensures CommitKnown(p, full, c, t)
  {
    if c != 0 {
      var u: Term, i: nat :| P.Committed(p, u, i) && u <= t && c <= i;
      P.CommittedInLater(p, u, i, t);
      P.AgreeLess(p.logs[t], p.logs[u], i, c);
      assert CommitBy(p, full, c, t, u, i);
    }
  }

  lemma DeliveryStays(p: P.Proto, p': P.Proto, t: Term, e: LogEntry)
    requires P.Extends(p, p') && DeliveryOk(p, t, e)
    ensures DeliveryOk(p', t, e)
  {
    var u: Term, i: nat :| DeliveredBy(p, t, e, u, i);
    P.CommittedStays(p, p', u, i);
    assert DeliveredBy(p', t, e, u, i);
  }

  lemma AckStays(p: P.Proto, p': P.Proto, n: NodeId, t: Term, i: nat)
    requires P.Extends(p, p') && AckOk(p, n, t, i)
    ensures AckOk(p', n, t, i)
  {
    if 0 < i { P.AckedStays(p, p', n, t, i); }
  }

  lemma MessageStays(p: P.Proto, p': P.Proto, dst: NodeId, m: Message)
    requires P.Extends(p, p') && MessageOk(p, dst, m)
    ensures MessageOk(p', dst, m)
  {
    match m
    case RequestVote(_, _, _, _) =>
    case RequestVoteResp(_, _, _) =>
    case AppendEntries(_, _, _, _, _, _) => CommitPointStays(p, p', m.leaderCommit, m.term);
    case AppendEntriesResp(t, success, n, i) => if success { AckStays(p, p', n, t, i); }
    case InstallSnapshot(_, _, _, _, _, _, _) => CommitPointStays(p, p', m.lastIndex, m.term);
    case InstallSnapshotResp(t, success, n, _, i) => if success { AckStays(p, p', n, t, i); }
  }

  lemma LeaderStays(p: P.Proto, p': P.Proto, n: NodeId, t: Term, matched: map<NodeId, nat>, next: map<NodeId, nat>,
                    last: nat)
    requires P.Extends(p, p') && LeaderOk(p, n, t, matched, next, last)
    ensures LeaderOk(p', n, t, matched, next, last)
  {
    P.AckedStays(p, p', n, t, last);
    forall q | q in matched && 0 < matched[q] ensures P.Acked(p', q, t, matched[q]) {
      P.AckedStays(p, p', q, t, matched[q]);
    }
  }

  /** Nodes that did not move stay tied. */
  lemma OtherNodeStays(p: P.Proto, p': P.Proto, n: NodeId, m: NodeId, s: NodeState)
    requires P.Moved(p, p', n) && m != n && NodeOk(p, m, s)
    ensures NodeOk(p', m, s)
  {
    CommitKnownStays(p, p', p.full[m], s.commitIndex, s.term, s.term);
    if s.role == Leader { LeaderStays(p, p', m, s.term, s.matchIndex, s.nextIndex, |p.full[m]|); }
  }
}
