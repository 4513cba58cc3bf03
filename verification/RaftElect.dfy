/**
 When a vote is granted, and that an election can be won: a node whose log is as new as those of a
 majority becomes the leader once these are asked and answer.
 */
module RaftElect {
  import opened Basics
  import opened RaftTypes
  import opened RaftLog
  import opened RaftNode
  import opened RaftCluster
  import P = RaftProtocol
  import opened RaftSim
  import opened RaftEvents
  import opened RaftSafety
  import opened RaftSettled

  // ---------- one vote ----------

  /** The position `(term, index)` is not before the end of the log. */
  predicate Reaches(term: Term, index: LogIndex, l: Log) {
    LastTerm(l) < term || (LastTerm(l) == term && LastIndex(l) <= index)
  }

  predicate AsNew(l: Log, other: Log) {
    Reaches(LastTerm(l), LastIndex(l), other)
  }

  /** Our vote in the candidate's term is free, or already the candidate's. */
  predicate MayVote(s: NodeState, candidate: NodeId, term: Term) {
    s.term < term || (s.term == term && (s.votedFor == None || s.votedFor == Some(candidate)))
  }

  lemma {:induction false} DrainSends(l: Log, applied: LogIndex, commit: LogIndex)
    ensures forall a :: a in DrainFrom(l, applied, commit) ==> a.Apply?
    decreases commit - applied
  {
    if applied < commit { DrainSends(l, applied + 1, commit); }
  }

  /**
   A vote is granted exactly when the message is not ignored, the vote is still free and the candidate's
   log ends no earlier than ours; it is then remembered.
   */
  lemma GrantsExactly(s: NodeState, m: Message)
    requires m.RequestVote?
    ensures var r := OnMessage(s, m, 0);
            && (SendTo(m.candidate, RequestVoteResp(m.term, true, s.me)) in r.actions <==>
                !Ignored(s, m) && MayVote(s, m.candidate, m.term) && Reaches(m.lastLogTerm, m.lastLogIndex, s.log))
            && (SendTo(m.candidate, RequestVoteResp(m.term, true, s.me)) in r.actions ==>
                r.state.term == m.term && r.state.votedFor == Some(m.candidate))
  {
    hide LastTerm, LastIndex, DrainFrom, WithoutHardState;
    if !Ignored(s, m) {
      var s1 := if s.term < m.term then StepDown(s, m.term) else s;
      var r := HandleRequestVote(s1, m);
      DrainSends(r.state.log, r.state.lastApplied, r.state.commitIndex);
      Answered(s1, m);
    }
  }

  lemma Answered(s: NodeState, m: Message)
    requires m.RequestVote?
    ensures var r := HandleRequestVote(s, m); var granted := r.actions[0].msg.granted;
            && r.actions[0] == SendTo(m.candidate, RequestVoteResp(s.term, granted, s.me))
            && (forall a :: a in r.actions ==> a == r.actions[0] || a == ResetElectionTimer)
            && (granted <==> s.term <= m.term && Reaches(m.lastLogTerm, m.lastLogIndex, s.log) &&
                             (s.votedFor == None || s.votedFor == Some(m.candidate)))
            && (granted ==> r.state.votedFor == Some(m.candidate))
            && r.state.term == s.term && r.state.log == s.log && r.state.lastApplied == s.lastApplied &&
               r.state.commitIndex == s.commitIndex
  {
    hide LastTerm, LastIndex, WithoutHardState;
  }

  // ---------- whose log is as new as whose ----------

  /** Along any history, terms do not fall. */
  lemma TermsRise(p: P.Proto, n: NodeId, j: nat, k: nat)
    requires P.Inv(p) && n in p.members && j <= k < |p.full[n]|
    ensures p.full[n][j].term <= p.full[n][k].term
  {
    hide P.LeaderCompleteness, P.AcksHeld, P.BallotsCover, P.BallotsOk, P.ElectedOk, P.AcksOk, P.LeaderLogsOk;
    var l := p.full[n];
    assert P.Traced(p, l);
    var t := l[k].term;
    assert P.TermsUpTo(p.logs[t], t);
    assert l[..k + 1][j] == p.logs[t][..k + 1][j];
  }

  /** A log that holds all that another holds is as new. */
  lemma HolderAsNew(p: P.Proto, n: NodeId, q: NodeId, s: NodeState, t: NodeState)
    requires P.Inv(p) && NodeOk(p, n, s) && NodeOk(p, q, t) && p.full[q] <= p.full[n]
    ensures AsNew(s.log, t.log)
  {
    hide P.Inv, LastTerm, LastIndex, PeersOf, CommitKnown, VoteOk, CandidateOk, LeaderOk, Represents;
    RepresentsEnd(s.log, p.full[n]);
    RepresentsEnd(t.log, p.full[q]);
    var k := |p.full[q]|;
    if 0 < k { TermsRise(p, n, k - 1, |p.full[n]| - 1); }
  }

  lemma AsNewOrder(a: Log, b: Log, c: Log)
    ensures AsNew(a, b) || AsNew(b, a)
    ensures AsNew(a, b) && AsNew(b, c) ==> AsNew(a, c)
  {
    hide LastTerm, LastIndex;
  }

  /** Of any nodes, one has a log as new as all of theirs. */
  lemma {:induction false} SomeNewest(nodes: map<NodeId, Node>, ids: set<NodeId>) returns (n: NodeId)
    requires ids <= nodes.Keys && ids != {}
    ensures n in ids && forall q :: q in ids ==> AsNew(nodes[n].raft.log, nodes[q].raft.log)
    decreases |ids|
  {
    hide AsNew;
    var a :| a in ids;
    var rest := ids - {a};
    assert ids == rest + {a};
    n := a;
    AsNewOrder(nodes[a].raft.log, nodes[a].raft.log, nodes[a].raft.log);
    if rest != {} {
      var b := SomeNewest(nodes, rest);
      n := if AsNew(nodes[b].raft.log, nodes[a].raft.log) then b else a;
      forall q | q in ids ensures AsNew(nodes[n].raft.log, nodes[q].raft.log) {
        AsNewOrder(nodes[a].raft.log, nodes[b].raft.log, nodes[q].raft.log);
      }
    }
  }

  // ---------- counting votes ----------

  function Ask(c: NodeState): Message {
    RequestVote(c.term, c.me, LastIndex(c.log), LastTerm(c.log))
  }

  /** The candidate once these have answered with their votes. */
  function Collect(s: NodeState, voters: seq<NodeId>): NodeState
    decreases |voters|
  {
    if voters == [] then s else Collect(OnMessage(s, RequestVoteResp(s.term, true, voters[0]), 0).state, voters[1..])
  }

  predicate Distinct(voters: seq<NodeId>) {
    forall i, j :: 0 <= i < j < |voters| ==> voters[i] != voters[j]
  }

  lemma OneVote(s: NodeState, v: NodeId)
    requires s.role != Follower && v in s.peers && s.term != MAX_TERM
    ensures var s1 := OnMessage(s, RequestVoteResp(s.term, true, v), 0).state;
            && s1.term == s.term && s1.peers == s.peers
            && (s.role == Leader || QuorumSize(s.peers) <= |s.votes + {v}| ==> s1.role == Leader)
            && (s.role == Candidate && |s.votes + {v}| < QuorumSize(s.peers) ==>
                s1.role == Candidate && s1.votes == s.votes + {v})
  {
    hide Recompute, DrainFrom, HeartbeatTick, TrackPeers;
    if s.role == Candidate {
      var l := Claim(s.(votes := s.votes + {v}));
      Tracked(l);
      RecomputeSame(TrackPeers(l));
    }
  }

  lemma Tracked(s: NodeState)
    ensures var t := TrackPeers(s); t.role == s.role && t.term == s.term && t.me == s.me && t.peers == s.peers
  {
  }

  lemma {:induction false} StaysLeader(s: NodeState, voters: seq<NodeId>)
    requires s.role == Leader && s.term != MAX_TERM && forall v :: v in voters ==> v in s.peers
    ensures Collect(s, voters).role == Leader && Collect(s, voters).term == s.term
    decreases |voters|
  {
    hide OnMessage;
    if voters != [] {
      OneVote(s, voters[0]);
      StaysLeader(OnMessage(s, RequestVoteResp(s.term, true, voters[0]), 0).state, voters[1..]);
    }
  }

  /** A candidate that is given a majority of votes leads. */
  lemma {:induction false} MajorityLeads(s: NodeState, voters: seq<NodeId>)
    requires s.role == Candidate && s.term != MAX_TERM && |s.votes| < QuorumSize(s.peers) <= |s.votes| + |voters|
    requires Distinct(voters) && forall v :: v in voters ==> v in s.peers && v !in s.votes
    ensures Collect(s, voters).role == Leader && Collect(s, voters).term == s.term
    decreases |voters|
  {
    hide OnMessage, QuorumSize;
    var v := voters[0];
    var s1 := OnMessage(s, RequestVoteResp(s.term, true, v), 0).state;
    OneVote(s, v);
    assert |s.votes + {v}| == |s.votes| + 1;
    if QuorumSize(s.peers) <= |s.votes + {v}| {
      StaysLeader(s1, voters[1..]);
    } else {
      MajorityLeads(s1, voters[1..]);
    }
  }

  // ---------- elections ----------

  lemma Campaigning(s: NodeState)
    requires s.role != Leader
    ensures var r := ElectionTimeout(s);
            && r.state.term == s.term + 1 && r.state.me == s.me && r.state.peers == s.peers
            && (s.peers != [] ==>
                && r.state.role == Candidate && r.state.votes == {s.me} && r.state.log == s.log
                && Broadcast(Ask(r.state)) in r.actions)
            && (s.peers == [] ==> r.state.role == Leader)
  {
    hide Recompute, DrainFrom, HeartbeatTick, TrackPeers, WithoutHardState;
    Tracked(Claim(Campaign(s)));
    RecomputeSame(TrackPeers(Claim(Campaign(s))));
    var r := ElectionTimeout(s);
    if s.peers != [] { assert r.actions[1] == Broadcast(Ask(r.state)); }
  }

  lemma VoterFacts(p: P.Proto, n: NodeId, v: NodeId, s: NodeState, t: NodeState)
    requires P.Inv(p) && NodeOk(p, n, s) && NodeOk(p, v, t) && v in s.peers
    ensures s.me == n && t.me == v && n in t.peers && n != v
  {
    hide P.Inv, CommitKnown, VoteOk, CandidateOk, LeaderOk, Represents;
  }

  /**
   In every run: a node that is not the leader, whose log is as new as those of enough others to make a
   majority with it, and whose next term is new to these and not too far ahead, wins the election it
   starts. Each of them grants its vote when asked, and with their answers the node leads that term.
   */
  lemma ElectionWon(trace: seq<Cluster>, i: nat, n: NodeId, voters: seq<NodeId>)
    requires Run(trace) && i < |trace| && n in trace[i].nodes && trace[i].nodes[n].raft.role != Leader
    requires var s := trace[i].nodes[n].raft;
             && s.term + 1 != MAX_TERM && Distinct(voters) && QuorumSize(s.peers) <= 1 + |voters|
             && forall v :: v in voters ==> v in s.peers && v in trace[i].nodes
    requires forall v :: v in voters ==>
               var s, t := trace[i].nodes[n].raft, trace[i].nodes[v].raft;
               t.term <= s.term < t.term + MAX_TERM_JUMP && AsNew(s.log, t.log)
    ensures var c := ElectionTimeout(trace[i].nodes[n].raft).state;
            && c.term == trace[i].nodes[n].raft.term + 1
            && Collect(c, voters).role == Leader && Collect(c, voters).term == c.term
            && (forall v :: v in voters ==>
                  SendTo(n, RequestVoteResp(c.term, true, v)) in OnMessage(trace[i].nodes[v].raft, Ask(c), 0).actions)
  {
    hide Run, Sim, NodeOk, OnMessage, Collect, ElectionTimeout, AsNew, P.Inv;
    var p, q := TwoMoments(trace, i, i);
    var s := trace[i].nodes[n].raft;
    var c := ElectionTimeout(s).state;
    Campaigning(s);
    SimFacts(trace[i], p, n);
    forall v | v in voters
      ensures n != v &&
              SendTo(n, RequestVoteResp(c.term, true, v)) in OnMessage(trace[i].nodes[v].raft, Ask(c), 0).actions
    {
      SimFacts(trace[i], p, v);
      VoterFacts(p, n, v, s, trace[i].nodes[v].raft);
      Asked(s, trace[i].nodes[v].raft, c);
    }
    NodeMe(p, n, s);
    if s.peers == [] {
      StaysLeader(c, voters);
    } else {
      MajorityLeads(c, voters);
    }
  }

  lemma Asked(s: NodeState, t: NodeState, c: NodeState)
    requires s.me in t.peers && t.term <= s.term < t.term + MAX_TERM_JUMP && AsNew(s.log, t.log)
    requires c.term == s.term + 1 != MAX_TERM && c.log == s.log && c.me == s.me
    ensures SendTo(s.me, RequestVoteResp(c.term, true, t.me)) in OnMessage(t, Ask(c), 0).actions
  {
    hide OnMessage, LastTerm, LastIndex;
    GrantsExactly(t, Ask(c));
  }
}
