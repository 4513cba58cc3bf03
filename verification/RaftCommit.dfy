/**
 The commit rule: the index at position N - quorum of the sorted match indices is the highest one a majority
 holds.
 */
module RaftCommit {
  import opened Basics
  import opened RaftTypes
  import opened RaftLog
  import opened RaftNode
  import opened RaftCluster
  import opened RaftSim
  import opened Sets
  import P = RaftProtocol

  function CountGe(s: seq<nat>, c: nat): nat {
    if s == [] then 0 else (if c <= s[0] then 1 else 0) + CountGe(s[1..], c)
  }

  ghost predicate Ascending(s: seq<nat>) {
    forall i, j :: 0 <= i < j < |s| ==> s[i] <= s[j]
  }

  lemma {:induction false} InsertSortedKeeps(x: nat, s: seq<nat>, c: nat)
    requires Ascending(s)
    ensures Ascending(InsertSorted(x, s)) && |InsertSorted(x, s)| == |s| + 1
    ensures CountGe(InsertSorted(x, s), c) == CountGe([x] + s, c)
    ensures forall y :: y in InsertSorted(x, s) ==> y == x || y in s
  {
    if s == [] || x <= s[0] {
    } else {
      InsertSortedKeeps(x, s[1..], c);
      var r := InsertSorted(x, s[1..]);
      assert InsertSorted(x, s)[1..] == r;
      assert ([x] + s[1..])[1..] == s[1..] && ([x] + s)[1..] == s;
      forall k | 0 <= k < |r| ensures s[0] <= r[k] { assert r[k] in r; }
    }
  }

  lemma {:induction false} SortedKeeps(s: seq<nat>, c: nat)
    ensures Ascending(Sorted(s)) && CountGe(Sorted(s), c) == CountGe(s, c)
  {
    if s != [] {
      SortedKeeps(s[1..], c);
      InsertSortedKeeps(s[0], Sorted(s[1..]), c);
      assert ([s[0]] + Sorted(s[1..]))[1..] == Sorted(s[1..]);
    }
  }

  lemma {:induction false} CountInAscending(s: seq<nat>, k: nat, c: nat)
    requires Ascending(s) && k < |s|
    ensures c <= s[k] ==> |s| - k <= CountGe(s, c)
    ensures s[k] < c ==> CountGe(s, c) < |s| - k
  {
    if k == 0 {
      if |s| > 1 {
        if c <= s[0] {
          assert c <= s[1..][0];
          CountInAscending(s[1..], 0, c);
        } else {
          CountAtMost(s[1..], c);
        }
      }
    } else {
      CountInAscending(s[1..], k - 1, c);
      if s[k] < c { assert s[0] <= s[k]; }
    }
  }

  lemma {:induction false} CountAtMost(s: seq<nat>, c: nat)
    ensures CountGe(s, c) <= |s|
  {
    if s != [] { CountAtMost(s[1..], c); }
  }

  /** The commit candidate is the largest index that at least a quorum of members holds. */
  lemma CandidateIsMajority(s: NodeState, c: nat)
    ensures c <= CommitCandidate(s) <==> QuorumSize(s.peers) <= CountGe(Replicated(s), c)
  {
    var k := |s.peers| + 1 - QuorumSize(s.peers);
    SortedKeeps(Replicated(s), c);
    CountInAscending(Sorted(Replicated(s)), k, c);
  }

  // ---------- from counts to sets of members ----------

  ghost function Holders(peers: seq<NodeId>, held: map<NodeId, nat>, c: nat): set<NodeId> {
    set q | q in peers && c <= At(held, q, 0)
  }

  lemma {:induction false} CountHolders(peers: seq<NodeId>, held: map<NodeId, nat>, c: nat)
    requires forall i, j :: 0 <= i < j < |peers| ==> peers[i] != peers[j]
    ensures CountGe(HeldBy(peers, held), c) == |Holders(peers, held, c)|
  {
    if peers == [] {
      assert Holders(peers, held, c) == {};
    } else {
      hide Holders;
      var rest := peers[1..];
      CountHolders(rest, held, c);
      assert HeldBy(peers, held)[1..] == HeldBy(rest, held);
      HoldersHead(peers, held, c);
    }
  }

  lemma HoldersHead(peers: seq<NodeId>, held: map<NodeId, nat>, c: nat)
    requires peers != [] && forall i, j :: 0 <= i < j < |peers| ==> peers[i] != peers[j]
    ensures var rest := Holders(peers[1..], held, c);
            && peers[0] !in rest
            && Holders(peers, held, c) == rest + if c <= At(held, peers[0], 0) then {peers[0]} else {}
  {
    var rest := peers[1..];
    assert peers == [peers[0]] + rest;
    assert peers[0] !in rest;
  }

  lemma {:induction false} CountAppend(s: seq<nat>, x: nat, c: nat)
    ensures CountGe(s + [x], c) == CountGe(s, c) + if c <= x then 1 else 0
  {
    if s == [] {
      assert s + [x] == [x];
    } else {
      CountAppend(s[1..], x, c);
      assert (s + [x])[1..] == s[1..] + [x];
    }
  }

  lemma PeersCount(peers: seq<NodeId>, members: set<NodeId>, n: NodeId)
    requires PeersOf(peers, members, n) && n in members
    ensures |members| == |peers| + 1
  {
    var held: map<NodeId, nat> := map[];
    CountHolders(peers, held, 0);
    AllCounted(HeldBy(peers, held));
    assert Holders(peers, held, 0) == members - {n};
    assert |members - {n}| == |members| - 1;
  }

  lemma {:induction false} AllCounted(s: seq<nat>)
    ensures CountGe(s, 0) == |s|
  {
    if s != [] { AllCounted(s[1..]); }
  }

  /** A leader commits only what a quorum has acknowledged in the leader's own term. */
  lemma RecomputeCommits(p: P.Proto, n: NodeId, s: NodeState)
    requires P.Inv(p) && NodeOk(p, n, s) && s.role == Leader
    ensures NodeOk(p, n, Recompute(s))
  {
    hide P.Inv, PeersOf, VoteOk, Represents, CommitKnown, CandidateOk, TermAt, LastIndex, Sorted, CommitCandidate;
    var c := CommitCandidate(s);
    if s.commitIndex < c && TermAt(s.log, c) == Some(s.term) {
      var full := p.full[n];
      RepresentsGet(s.log, full, c);
      RepresentsEnd(s.log, full);
      LeaderLog(p, n, s);
      QuorumAcked(p, n, s, c);
      assert CommitKnown(p, full, c, s.term) by { KnownCommitted(p, full, c, s.term); }
    }
  }

  lemma LeaderLog(p: P.Proto, n: NodeId, s: NodeState)
    requires P.Inv(p) && NodeOk(p, n, s) && s.role == Leader
    ensures s.term in p.logs && p.logs[s.term] == p.full[n]
  {
    hide P.LeaderCompleteness, P.AcksHeld, P.BallotsCover, P.BallotsOk, P.ElectedOk, P.AcksOk, PeersOf, VoteOk,
         Represents, CandidateOk, P.HistoryOk, P.FullOk, CommitKnown;
  }

  lemma KnownCommitted(p: P.Proto, full: seq<LogEntry>, c: nat, t: Term)
    requires P.Committed(p, t, c) && t in p.logs && p.logs[t] == full && c <= |full|
    ensures CommitKnown(p, full, c, t)
  {
    hide P.Committed;
    assert P.Agree(full, p.logs[t], c);
    assert CommitBy(p, full, c, t, t, c);
  }

  lemma QuorumAcked(p: P.Proto, n: NodeId, s: NodeState, c: nat)
    requires NodeOk(p, n, s) && s.role == Leader
    requires 0 < c <= CommitCandidate(s) && P.Known(p, c, s.term)
    requires LastIndex(s.log) == |p.full[n]|
    ensures P.Committed(p, s.term, c)
  {
    CandidateIsMajority(s, c);
    CountAppend(HeldBy(s.peers, s.matchIndex), LastIndex(s.log), c);
    CountHolders(s.peers, s.matchIndex, c);
    var peers := Holders(s.peers, s.matchIndex, c);
    var q := peers + if c <= LastIndex(s.log) then {n} else {};
    assert |q| == CountGe(Replicated(s), c);
    PeersCount(s.peers, p.members, n);
    assert P.Quorum(p.members, q);
    forall m | m in q ensures P.Acked(p, m, s.term, c) {
      if m == n {
        AckedLess(p, n, s.term, |p.full[n]|, c);
      } else {
        AckedLess(p, m, s.term, s.matchIndex[m], c);
      }
    }
    assert P.AllAcked(p, q, s.term, c);
  }

  lemma AckedLess(p: P.Proto, n: NodeId, t: Term, i: nat, j: nat)
    requires P.Acked(p, n, t, i) && j <= i
    ensures P.Acked(p, n, t, j)
  {
    var a :| a in p.acks && a.node == n && a.term == t && i <= a.index;
    assert j <= a.index;
  }

  // ---------- and all of it ----------

  /** How far a member's log reaches, as far as the leader knows. */
  function HeldIndex(s: NodeState, m: NodeId): nat {
    if m == s.me then LastIndex(s.log) else At(s.matchIndex, m, 0)
  }

  ghost predicate AllReach(s: NodeState, q: set<NodeId>, c: nat) {
    forall m :: m in q ==> c <= HeldIndex(s, m)
  }

  /** A majority of the members is known to hold index `c`. */
  ghost predicate MajorityHolds(s: NodeState, members: set<NodeId>, c: nat) {
    exists q :: P.Quorum(members, q) && AllReach(s, q, c)
  }

  lemma MajorityCounts(s: NodeState, members: set<NodeId>, c: nat)
    requires PeersOf(s.peers, members, s.me) && s.me in members
    ensures MajorityHolds(s, members, c) <==> c <= CommitCandidate(s)
  {
    CandidateIsMajority(s, c);
    CountAppend(HeldBy(s.peers, s.matchIndex), LastIndex(s.log), c);
    CountHolders(s.peers, s.matchIndex, c);
    PeersCount(s.peers, members, s.me);
    var all := Holders(s.peers, s.matchIndex, c) + if c <= LastIndex(s.log) then {s.me} else {};
    assert |all| == CountGe(Replicated(s), c);
    if q :| P.Quorum(members, q) && AllReach(s, q, c) { Smaller(q, all); }
    if c <= CommitCandidate(s) { assert P.Quorum(members, all) && AllReach(s, all, c); }
  }

  /** Past an entry of the leader's own term its log has only such entries. */
  lemma OwnTermOn(p: P.Proto, n: NodeId, s: NodeState, c: nat, d: nat)
    requires P.Inv(p) && NodeOk(p, n, s) && 0 < c <= d <= |p.full[n]| && p.full[n][c - 1].term == s.term
    ensures p.full[n][d - 1].term == s.term
  {
    hide PeersOf, CommitKnown, LeaderOk, CandidateOk, VoteOk, Represents;
    var full := p.full[n];
    var u := full[d - 1].term;
    assert P.Traced(p, full) && P.TermsUpTo(full, s.term);
    assert P.Known(p, d, u) && P.Agree(full, p.logs[u], d);
    assert P.TermsUpTo(p.logs[u], u);
    assert full[c - 1] == p.logs[u][c - 1] by { assert full[..d][c - 1] == p.logs[u][..d][c - 1]; }
  }

  /**
   The commit rule is exact: a leader commits an index past its commit index if and only if a majority is known to
   hold it together with an entry of the leader's own term at or past it.
   */
  lemma CommitsExactly(p: P.Proto, n: NodeId, s: NodeState, c: nat)
    requires P.Inv(p) && NodeOk(p, n, s) && s.role == Leader && s.commitIndex < c
    ensures c <= Recompute(s).commitIndex <==>
            exists d :: c <= d && TermAt(s.log, d) == Some(s.term) && MajorityHolds(s, p.members, d)
  {
    hide P.Inv, CommitCandidate, MajorityHolds, TermAt;
    var k := CommitCandidate(s);
    MajorityCounts(s, p.members, k);
    if d :| c <= d && TermAt(s.log, d) == Some(s.term) && MajorityHolds(s, p.members, d) {
      MajorityCounts(s, p.members, d);
      CandidateInLog(p, n, s);
      RepresentsGet(s.log, p.full[n], d);
      RepresentsGet(s.log, p.full[n], k);
      OwnTermOn(p, n, s, d, k);
    }
  }

  lemma CandidateInLog(p: P.Proto, n: NodeId, s: NodeState)
    requires NodeOk(p, n, s) && s.role == Leader
    ensures CommitCandidate(s) <= |p.full[n]| && LastIndex(s.log) == |p.full[n]|
  {
    hide CommitKnown, CandidateOk, VoteOk, CommitCandidate;
    var k := CommitCandidate(s);
    RepresentsEnd(s.log, p.full[n]);
    MajorityCounts(s, p.members, k);
    var q :| P.Quorum(p.members, q) && AllReach(s, q, k);
    assert q != {};
    var m :| m in q;
    assert k <= HeldIndex(s, m);
  }
}
