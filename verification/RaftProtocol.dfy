/**
 The Raft protocol over facts that are never withdrawn: votes cast, leaders elected, the log each
 leader wrote in its term, and acknowledgements. Logs are whole (no compaction) and there are no
 messages, so every step is one of six small functions. The cluster of real nodes is shown to
 simulate this protocol, and its safety comes from the invariant proved here.
 */
module RaftProtocol {
  import opened RaftTypes
  import opened Sets

  /** A vote: for whom, and where the candidate's log ended when it asked. */
  datatype Ballot = Ballot(candidate: NodeId, lastIndex: LogIndex, lastTerm: Term)

  /** `node` told the leader of `term` that their logs agree through `index`. */
  datatype Ack = Ack(node: NodeId, term: Term, index: LogIndex)

  datatype Proto = Proto(
    members: set<NodeId>,
    term: map<NodeId, Term>,
    full: map<NodeId, seq<LogEntry>>,
    ballots: map<(NodeId, Term), Ballot>,
    leaders: map<Term, NodeId>,
    logs: map<Term, seq<LogEntry>>,
    acks: set<Ack>)

  // ---------- quorums ----------

  ghost predicate Quorum(members: set<NodeId>, q: set<NodeId>) {
    q <= members && 2 * |q| > |members|
  }

  lemma QuorumsMeet(members: set<NodeId>, a: set<NodeId>, b: set<NodeId>) returns (n: NodeId)
    requires Quorum(members, a) && Quorum(members, b)
    ensures n in a && n in b
  {
    if a * b == {} {
      assert |a + b| == |a| + |b|;
      Smaller(a + b, members);
      assert false;
    }
    n :| n in a * b;
  }

  // ---------- logs and positions ----------

  ghost predicate Agree(a: seq<LogEntry>, b: seq<LogEntry>, i: nat) {
    i <= |a| && i <= |b| && a[..i] == b[..i]
  }

  /** The leader of `t` wrote, in its own term, the entry at index `i`. */
  ghost predicate Known(p: Proto, i: nat, t: Term) {
    t in p.logs && 0 < i <= |p.logs[t]| && p.logs[t][i - 1].term == t
  }

  /** Each entry of `l` comes from the leader of its term, together with everything before it. */
  ghost predicate Traced(p: Proto, l: seq<LogEntry>) {
    forall k :: 0 <= k < |l| ==>
      l[k].index == k + 1 && Known(p, k + 1, l[k].term) && Agree(l, p.logs[l[k].term], k + 1)
  }

  function EndTerm(l: seq<LogEntry>): Term {
    if l == [] then 0 else l[|l| - 1].term
  }

  ghost predicate Position(p: Proto, b: Ballot) {
    if b.lastIndex == 0 then b.lastTerm == 0 else Known(p, b.lastIndex, b.lastTerm)
  }

  ghost function PositionLog(p: Proto, b: Ballot): seq<LogEntry>
    requires Position(p, b)
  {
    if b.lastIndex == 0 then [] else p.logs[b.lastTerm][..b.lastIndex]
  }

  // ---------- choosing ----------

  ghost predicate Acked(p: Proto, n: NodeId, t: Term, i: nat) {
    exists a :: a in p.acks && a.node == n && a.term == t && i <= a.index
  }

  ghost predicate MayAck(p: Proto, n: NodeId, t: Term, i: nat) {
    Acked(p, n, t, i) || (n in p.term && p.term[n] <= t)
  }

  ghost predicate AllMayAck(p: Proto, q: set<NodeId>, t: Term, i: nat) {
    forall n :: n in q ==> MayAck(p, n, t, i)
  }

  ghost predicate AllAcked(p: Proto, q: set<NodeId>, t: Term, i: nat) {
    forall n :: n in q ==> Acked(p, n, t, i)
  }

  /** A quorum has acknowledged, or could still acknowledge, index `i` in term `t`. */
  ghost predicate Choosable(p: Proto, t: Term, i: nat) {
    exists q :: Quorum(p.members, q) && AllMayAck(p, q, t, i)
  }

  /** Index `i`, written in term `t`, is on a quorum: this is what "committed" means. */
  ghost predicate Committed(p: Proto, t: Term, i: nat) {
    Known(p, i, t) && exists q :: Quorum(p.members, q) && AllAcked(p, q, t, i)
  }

  // ---------- the invariant ----------

  ghost predicate Shape(p: Proto) {
    && p.term.Keys == p.members && p.full.Keys == p.members
    && p.leaders.Keys == p.logs.Keys
    && (forall t :: t in p.leaders ==> p.leaders[t] in p.members && 0 < t)
  }

  ghost predicate HistoryOk(p: Proto) {
    forall t :: t in p.logs ==> Traced(p, p.logs[t]) && TermsUpTo(p.logs[t], t)
  }

  ghost predicate TermsUpTo(l: seq<LogEntry>, t: Term) {
    forall k :: 0 <= k < |l| ==> l[k].term <= t
  }

  ghost predicate FullOk(p: Proto)
    requires Shape(p)
  {
    forall n :: n in p.members ==> Traced(p, p.full[n]) && TermsUpTo(p.full[n], p.term[n])
  }

  ghost predicate BallotsOk(p: Proto)
    requires Shape(p)
  {
    && (forall k :: k in p.ballots ==>
          k.0 in p.members && k.1 <= p.term[k.0] && Position(p, p.ballots[k]))
    && (forall k :: k in p.ballots ==> SelfVoted(p, k))
  }

  /** Whoever receives a vote in a term voted for itself first, naming the same log end. */
  ghost predicate SelfVoted(p: Proto, k: (NodeId, Term))
    requires k in p.ballots
  {
    var own := (p.ballots[k].candidate, k.1);
    own in p.ballots && p.ballots[own] == p.ballots[k]
  }

  ghost predicate WonBy(p: Proto, t: Term, c: NodeId, q: set<NodeId>) {
    Quorum(p.members, q) && forall v :: v in q ==> (v, t) in p.ballots && p.ballots[(v, t)].candidate == c
  }

  ghost predicate ElectedOk(p: Proto) {
    forall t :: t in p.leaders ==> exists q :: WonBy(p, t, p.leaders[t], q)
  }

  ghost predicate AcksOk(p: Proto)
    requires Shape(p)
  {
    forall a :: a in p.acks ==>
      && a.node in p.members && a.term <= p.term[a.node] && a.term in p.logs && a.index <= |p.logs[a.term]|
      && (a.term == p.term[a.node] ==> Agree(p.full[a.node], p.logs[a.term], a.index))
  }

  ghost predicate LeaderLogsOk(p: Proto)
    requires Shape(p)
  {
    forall t :: t in p.leaders ==>
      t <= p.term[p.leaders[t]] && (p.term[p.leaders[t]] == t ==> p.full[p.leaders[t]] == p.logs[t])
  }

  /** Every later leader's log extends whatever an earlier term may still commit. */
  ghost predicate LeaderCompleteness(p: Proto) {
    forall t: Term, u: Term, i: nat :: t in p.logs && u in p.logs && t < u && Known(p, i, t) && Choosable(p, t, i) ==>
      Agree(p.logs[u], p.logs[t], i)
  }

  /** A node still holds what it acknowledged, as long as that may be committed. */
  ghost predicate AcksHeld(p: Proto)
    requires Shape(p)
  {
    forall n: NodeId, t: Term, i: nat :: n in p.members && Known(p, i, t) && Acked(p, n, t, i) && Choosable(p, t, i) ==>
      Agree(p.full[n], p.logs[t], i)
  }

  /** A voter only votes for candidates whose log covers what the voter acknowledged. */
  ghost predicate BallotsCover(p: Proto)
    requires Shape(p) && BallotsOk(p)
  {
    forall k: (NodeId, Term), t: Term, i: nat ::
      k in p.ballots && t < k.1 && Known(p, i, t) && Acked(p, k.0, t, i) && Choosable(p, t, i) ==>
      Agree(PositionLog(p, p.ballots[k]), p.logs[t], i)
  }

  ghost predicate Basic(p: Proto) {
    && Shape(p) && HistoryOk(p) && FullOk(p) && BallotsOk(p) && ElectedOk(p) && AcksOk(p) && LeaderLogsOk(p)
  }

  ghost predicate Inv(p: Proto) {
    Basic(p) && LeaderCompleteness(p) && AcksHeld(p) && BallotsCover(p)
  }

  // ---------- steps ----------

  /** A node learns of a later term. */
  ghost predicate CanBump(p: Proto, n: NodeId, t: Term) {
    n in p.members && n in p.term && p.term[n] < t
  }

  ghost function Bump(p: Proto, n: NodeId, t: Term): Proto {
    p.(term := p.term[n := t])
  }

  /** A node casts its one vote of its current term. */
  ghost predicate CanVote(p: Proto, v: NodeId, b: Ballot) {
    && v in p.members && v in p.term && v in p.full
    && (v, p.term[v]) !in p.ballots
    && Position(p, b)
    && (EndTerm(p.full[v]) < b.lastTerm || (EndTerm(p.full[v]) == b.lastTerm && |p.full[v]| <= b.lastIndex))
    && (b.candidate == v || ((b.candidate, p.term[v]) in p.ballots && p.ballots[(b.candidate, p.term[v])] == b))
  }

  ghost function Vote(p: Proto, v: NodeId, b: Ballot): Proto
    requires v in p.term
  {
    p.(ballots := p.ballots[(v, p.term[v]) := b])
  }

  /** A candidate with a quorum of votes becomes the leader of its term. */
  ghost predicate CanElect(p: Proto, c: NodeId, q: set<NodeId>) {
    && c in p.members && c in p.term && c in p.full
    && 0 < p.term[c] && p.term[c] !in p.logs
    && WonBy(p, p.term[c], c, q)
    && (c, p.term[c]) in p.ballots && p.ballots[(c, p.term[c])].candidate == c
    && Position(p, p.ballots[(c, p.term[c])]) && PositionLog(p, p.ballots[(c, p.term[c])]) == p.full[c]
  }

  ghost function Elect(p: Proto, c: NodeId): Proto
    requires c in p.term && c in p.full
  {
    p.(leaders := p.leaders[p.term[c] := c], logs := p.logs[p.term[c] := p.full[c]])
  }

  /** The leader of a term appends an entry of that term. */
  ghost predicate CanWrite(p: Proto, c: NodeId, e: LogEntry) {
    && c in p.members && c in p.term && c in p.full
    && p.term[c] in p.leaders && p.leaders[p.term[c]] == c
    && e.term == p.term[c] && e.index == |p.full[c]| + 1
  }

  ghost function Write(p: Proto, c: NodeId, e: LogEntry): Proto
    requires c in p.term && c in p.full
  {
    var l := p.full[c] + [e];
    p.(full := p.full[c := l], logs := p.logs[p.term[c] := l])
  }

  /**
   A follower replaces its log by the first `g` entries of its leader's log. It may shorten its log
   only past a real conflict: the logs agree on `f` entries and then either the follower's ends, or
   the terms of the next entries differ.
   */
  ghost predicate CanAccept(p: Proto, n: NodeId, f: nat, g: nat) {
    && n in p.members && n in p.term && n in p.full
    && p.term[n] in p.logs && p.term[n] in p.leaders && p.leaders[p.term[n]] != n
    && f <= g <= |p.logs[p.term[n]]|
    && Agree(p.full[n], p.logs[p.term[n]], f)
    && (f == |p.full[n]|
        || (f < |p.full[n]| && f < |p.logs[p.term[n]]| && p.full[n][f].term != p.logs[p.term[n]][f].term))
  }

  ghost function Accept(p: Proto, n: NodeId, g: nat): Proto
    requires n in p.term && p.term[n] in p.logs && g <= |p.logs[p.term[n]]|
  {
    p.(full := p.full[n := p.logs[p.term[n]][..g]])
  }

  /** A node acknowledges agreement with the leader of its term. */
  ghost predicate CanAck(p: Proto, n: NodeId, i: nat) {
    && n in p.members && n in p.term && n in p.full
    && p.term[n] in p.logs
    && Agree(p.full[n], p.logs[p.term[n]], i)
  }

  ghost function AckTo(p: Proto, n: NodeId, i: nat): Proto
    requires n in p.term
  {
    p.(acks := p.acks + {Ack(n, p.term[n], i)})
  }

  // ---------- lemmas about logs ----------

  /** Log matching: equal terms at an index mean equal logs up to it. */
  lemma LogMatching(p: Proto, a: seq<LogEntry>, b: seq<LogEntry>, i: nat)
    requires Traced(p, a) && Traced(p, b)
    requires 0 < i <= |a| && i <= |b| && a[i - 1].term == b[i - 1].term
    ensures Agree(a, b, i)
  {
    assert Agree(a, p.logs[a[i - 1].term], i);
    assert Agree(b, p.logs[b[i - 1].term], i);
  }

  lemma AgreeLess(a: seq<LogEntry>, b: seq<LogEntry>, i: nat, j: nat)
    requires Agree(a, b, i) && j <= i
    ensures Agree(a, b, j)
  {
    assert a[..j] == a[..i][..j];
    assert b[..j] == b[..i][..j];
  }

  lemma AgreeTrans(a: seq<LogEntry>, b: seq<LogEntry>, c: seq<LogEntry>, i: nat)
    requires Agree(a, b, i) && Agree(b, c, i)
    ensures Agree(a, c, i)
  {
  }

  lemma AgreeAt(a: seq<LogEntry>, b: seq<LogEntry>, i: nat, k: nat)
    requires Agree(a, b, i) && k < i
    ensures a[k] == b[k]
  {
    assert a[..i][k] == b[..i][k];
  }

  /** Terms never decrease along a traced log. */
  lemma TermsSorted(p: Proto, l: seq<LogEntry>, j: nat, k: nat)
    requires HistoryOk(p) && Traced(p, l) && j <= k < |l|
    ensures l[j].term <= l[k].term
  {
    var u := l[k].term;
    AgreeAt(l, p.logs[u], k + 1, j);
    assert p.logs[u][j].term <= u;
  }

  lemma TracedPrefix(p: Proto, l: seq<LogEntry>, g: nat)
    requires Traced(p, l) && g <= |l|
    ensures Traced(p, l[..g])
  {
    forall k | 0 <= k < |l[..g]|
      ensures l[..g][k].index == k + 1 && Known(p, k + 1, l[..g][k].term) &&
              Agree(l[..g], p.logs[l[..g][k].term], k + 1)
    {
      assert l[..g][k] == l[k];
      assert l[..g][..k + 1] == l[..k + 1];
    }
  }

  // ---------- preservation ----------

  lemma FewerChoices(p: Proto, p': Proto, t: Term, i: nat)
    requires p'.members == p.members
    requires forall n :: n in p.members && MayAck(p', n, t, i) ==> MayAck(p, n, t, i)
    requires Choosable(p', t, i)
    ensures Choosable(p, t, i)
  {
    var q :| Quorum(p'.members, q) && AllMayAck(p', q, t, i);
    assert AllMayAck(p, q, t, i);
  }

  lemma ElectionsStand(p: Proto, p': Proto)
    requires p'.members == p.members && ElectedOk(p)
    requires forall t :: t in p'.leaders ==> t in p.leaders && p'.leaders[t] == p.leaders[t]
    requires forall k :: k in p.ballots ==> k in p'.ballots && p'.ballots[k] == p.ballots[k]
    ensures ElectedOk(p')
  {
    forall t | t in p'.leaders ensures exists q :: WonBy(p', t, p'.leaders[t], q) {
      var q :| WonBy(p, t, p.leaders[t], q);
      assert WonBy(p', t, p'.leaders[t], q);
    }
  }

  /** Traced logs stay traced while leader logs only grow. */
  lemma TracedStays(p: Proto, p': Proto)
    requires forall t :: t in p.logs ==> t in p'.logs && p.logs[t] <= p'.logs[t]
    ensures forall l :: Traced(p, l) ==> Traced(p', l)
  {
    forall l: seq<LogEntry> | Traced(p, l) ensures Traced(p', l) {
      forall k | 0 <= k < |l| ensures Known(p', k + 1, l[k].term) && Agree(l, p'.logs[l[k].term], k + 1) {
        var u := l[k].term;
        assert Known(p, k + 1, u) && Agree(l, p.logs[u], k + 1);
        assert p'.logs[u][..k + 1] == p.logs[u][..k + 1];
      }
    }
  }

  lemma BumpFull(p: Proto, n: NodeId, t: Term)
    requires Shape(p) && FullOk(p) && CanBump(p, n, t)
    ensures Shape(Bump(p, n, t)) && FullOk(Bump(p, n, t))
  {
    TracedStays(p, Bump(p, n, t));
  }

  lemma BumpHistory(p: Proto, n: NodeId, t: Term)
    requires HistoryOk(p)
    ensures HistoryOk(Bump(p, n, t))
  {
    TracedStays(p, Bump(p, n, t));
  }

  lemma BumpBallots(p: Proto, n: NodeId, t: Term)
    requires Shape(p) && BallotsOk(p) && CanBump(p, n, t) && Shape(Bump(p, n, t))
    ensures BallotsOk(Bump(p, n, t))
  {
    var p' := Bump(p, n, t);
    assert forall k :: k in p.ballots ==> Position(p', p.ballots[k]);
  }

  lemma BumpAcks(p: Proto, n: NodeId, t: Term)
    requires Shape(p) && AcksOk(p) && LeaderLogsOk(p) && CanBump(p, n, t) && Shape(Bump(p, n, t))
    ensures AcksOk(Bump(p, n, t)) && LeaderLogsOk(Bump(p, n, t))
  {
  }

  lemma BumpKeepsBasic(p: Proto, n: NodeId, t: Term)
    requires Basic(p) && CanBump(p, n, t)
    ensures Basic(Bump(p, n, t))
  {
    BumpFull(p, n, t);
    BumpHistory(p, n, t);
    BumpBallots(p, n, t);
    BumpAcks(p, n, t);
    ElectionsStand(p, Bump(p, n, t));
  }

  lemma BumpKeepsInv(p: Proto, n: NodeId, t: Term)
    requires Inv(p) && CanBump(p, n, t)
    ensures Inv(Bump(p, n, t))
  {
    var p' := Bump(p, n, t);
    BumpKeepsBasic(p, n, t);
    SameFactsKeepCore(p, p');
  }

  /** A step that leaves logs, ballots and acknowledgements alone keeps the three choice invariants. */
  lemma SameFactsKeepCore(p: Proto, p': Proto)
    requires Shape(p) && BallotsOk(p) && LeaderCompleteness(p) && AcksHeld(p) && BallotsCover(p)
    requires Shape(p') && BallotsOk(p')
    requires p'.members == p.members && p'.full == p.full && p'.logs == p.logs && p'.ballots == p.ballots &&
             p'.acks == p.acks
    requires forall n :: n in p.members ==> p.term[n] <= p'.term[n]
    ensures LeaderCompleteness(p') && AcksHeld(p') && BallotsCover(p')
  {
    assert forall u: Term, i: nat :: Known(p', i, u) == Known(p, i, u);
    assert forall m: NodeId, u: Term, i: nat :: Acked(p', m, u, i) == Acked(p, m, u, i);
    forall u: Term, i: nat | Choosable(p', u, i) ensures Choosable(p, u, i) { FewerChoices(p, p', u, i); }
    forall k: (NodeId, Term), t: Term, i: nat
      | k in p'.ballots && t < k.1 && Known(p', i, t) && Acked(p', k.0, t, i) && Choosable(p', t, i)
      ensures Agree(PositionLog(p', p'.ballots[k]), p'.logs[t], i)
    {
      assert Agree(PositionLog(p, p.ballots[k]), p.logs[t], i);
    }
  }

  // Vote

  lemma VoteKeepsBasic(p: Proto, v: NodeId, b: Ballot)
    requires Basic(p) && CanVote(p, v, b)
    ensures Basic(Vote(p, v, b))
  {
    var p' := Vote(p, v, b);
    VoteBallots(p, v, b);
    ElectionsStand(p, p');
    VoteLogs(p, v, b);
  }

  lemma VoteBallots(p: Proto, v: NodeId, b: Ballot)
    requires Shape(p) && BallotsOk(p) && CanVote(p, v, b)
    ensures Shape(Vote(p, v, b)) && BallotsOk(Vote(p, v, b))
  {
    var p' := Vote(p, v, b);
    assert forall x :: Position(p, x) ==> Position(p', x);
    forall k | k in p'.ballots ensures SelfVoted(p', k) {
      if k in p.ballots { assert SelfVoted(p, k); }
    }
  }

  lemma VoteLogs(p: Proto, v: NodeId, b: Ballot)
    requires Shape(p) && HistoryOk(p) && FullOk(p) && AcksOk(p) && LeaderLogsOk(p) && CanVote(p, v, b)
    requires Shape(Vote(p, v, b))
    ensures HistoryOk(Vote(p, v, b)) && FullOk(Vote(p, v, b)) && AcksOk(Vote(p, v, b)) && LeaderLogsOk(Vote(p, v, b))
  {
    TracedStays(p, Vote(p, v, b));
  }

  /** The vote's up-to-date check makes the candidate cover what the voter acknowledged. */
  lemma VoteCovers(p: Proto, v: NodeId, b: Ballot, t: Term, i: nat)
    requires Shape(p) && HistoryOk(p) && FullOk(p) && LeaderCompleteness(p) && AcksHeld(p) && CanVote(p, v, b)
    requires Known(p, i, t) && Acked(p, v, t, i) && Choosable(p, t, i)
    ensures Agree(PositionLog(p, b), p.logs[t], i)
  {
    var mine := p.full[v];
    assert Agree(mine, p.logs[t], i);
    AgreeAt(mine, p.logs[t], i, i - 1);
    TermsSorted(p, mine, i - 1, |mine| - 1);
    var u := b.lastTerm;
    assert t <= EndTerm(mine) <= u;
    assert Known(p, b.lastIndex, u);
    if EndTerm(mine) == u {
      assert Agree(mine, p.logs[u], |mine|);
      AgreeLess(mine, p.logs[u], |mine|, i);
      assert Agree(p.logs[u], p.logs[t], i);
      assert PositionLog(p, b)[..i] == p.logs[u][..i];
    } else {
      assert Agree(p.logs[u], p.logs[t], i);
      if b.lastIndex < i {
        AgreeAt(p.logs[u], p.logs[t], i, b.lastIndex - 1);
        assert false;
      }
      assert PositionLog(p, b)[..i] == p.logs[u][..i];
    }
  }

  lemma VoteKeepsInv(p: Proto, v: NodeId, b: Ballot)
    requires Inv(p) && CanVote(p, v, b)
    ensures Inv(Vote(p, v, b))
  {
    VoteKeepsBasic(p, v, b);
    VoteKeepsCore(p, v, b);
  }

  lemma VoteKeepsCore(p: Proto, v: NodeId, b: Ballot)
    requires Shape(p) && HistoryOk(p) && FullOk(p) && BallotsOk(p) && CanVote(p, v, b)
    requires LeaderCompleteness(p) && AcksHeld(p) && BallotsCover(p)
    requires Shape(Vote(p, v, b)) && BallotsOk(Vote(p, v, b))
    ensures LeaderCompleteness(Vote(p, v, b)) && AcksHeld(Vote(p, v, b)) && BallotsCover(Vote(p, v, b))
  {
    var p' := Vote(p, v, b);
    assert forall u: Term, i: nat :: Known(p', i, u) == Known(p, i, u);
    assert forall m: NodeId, u: Term, i: nat :: Acked(p', m, u, i) == Acked(p, m, u, i);
    forall u: Term, i: nat | Choosable(p', u, i) ensures Choosable(p, u, i) { FewerChoices(p, p', u, i); }
    forall k: (NodeId, Term), t: Term, i: nat
      | k in p'.ballots && t < k.1 && Known(p', i, t) && Acked(p', k.0, t, i) && Choosable(p', t, i)
      ensures Agree(PositionLog(p', p'.ballots[k]), p'.logs[t], i)
    {
      if k == (v, p.term[v]) {
        VoteCovers(p, v, b, t, i);
      } else {
        assert Agree(PositionLog(p, p.ballots[k]), p.logs[t], i);
      }
    }
  }

  // AckTo

  lemma AckKeepsInv(p: Proto, n: NodeId, i: nat)
    requires Inv(p) && CanAck(p, n, i)
    ensures Inv(AckTo(p, n, i))
  {
    var p' := AckTo(p, n, i);
    AckLogs(p, n, i);
    AckBallots(p, n, i);
    ElectionsStand(p, p');
    AckKeepsCore(p, n, i);
  }

  lemma AckLogs(p: Proto, n: NodeId, i: nat)
    requires Shape(p) && HistoryOk(p) && FullOk(p) && AcksOk(p) && LeaderLogsOk(p) && CanAck(p, n, i)
    ensures Shape(AckTo(p, n, i)) && HistoryOk(AckTo(p, n, i)) && FullOk(AckTo(p, n, i))
    ensures AcksOk(AckTo(p, n, i)) && LeaderLogsOk(AckTo(p, n, i))
  {
    TracedStays(p, AckTo(p, n, i));
  }

  lemma AckBallots(p: Proto, n: NodeId, i: nat)
    requires Shape(p) && BallotsOk(p) && CanAck(p, n, i) && Shape(AckTo(p, n, i))
    ensures BallotsOk(AckTo(p, n, i))
  {
    var p' := AckTo(p, n, i);
    assert forall x :: Position(p, x) ==> Position(p', x);
  }

  lemma AckedAfter(p: Proto, n: NodeId, i: nat, m: NodeId, u: Term, j: nat)
    requires n in p.term && Acked(AckTo(p, n, i), m, u, j)
    ensures Acked(p, m, u, j) || (m == n && u == p.term[n] && j <= i)
  {
    var p' := AckTo(p, n, i);
    var b :| b in p'.acks && b.node == m && b.term == u && j <= b.index;
    assert b == Ack(n, p.term[n], i) || b in p.acks;
  }

  lemma AckKeepsCore(p: Proto, n: NodeId, i: nat)
    requires Shape(p) && BallotsOk(p) && CanAck(p, n, i)
    requires LeaderCompleteness(p) && AcksHeld(p) && BallotsCover(p)
    requires Shape(AckTo(p, n, i)) && BallotsOk(AckTo(p, n, i))
    ensures LeaderCompleteness(AckTo(p, n, i)) && AcksHeld(AckTo(p, n, i)) && BallotsCover(AckTo(p, n, i))
  {
    var p' := AckTo(p, n, i);
    assert forall u: Term, j: nat :: Known(p', j, u) == Known(p, j, u);
    forall m: NodeId, u: Term, j: nat | Acked(p', m, u, j)
      ensures Acked(p, m, u, j) || (m == n && u == p.term[n] && j <= i)
    {
      AckedAfter(p, n, i, m, u, j);
    }
    forall u: Term, j: nat | Choosable(p', u, j) ensures Choosable(p, u, j) { FewerChoices(p, p', u, j); }
    forall m: NodeId, u: Term, j: nat | m in p'.members && Known(p', j, u) && Acked(p', m, u, j) && Choosable(p', u, j)
      ensures Agree(p'.full[m], p'.logs[u], j)
    {
      if !Acked(p, m, u, j) { AgreeLess(p.full[n], p.logs[u], i, j); }
    }
    forall k: (NodeId, Term), u: Term, j: nat
      | k in p'.ballots && u < k.1 && Known(p', j, u) && Acked(p', k.0, u, j) && Choosable(p', u, j)
      ensures Agree(PositionLog(p', p'.ballots[k]), p'.logs[u], j)
    {
      assert Acked(p, k.0, u, j);
      assert Agree(PositionLog(p, p.ballots[k]), p.logs[u], j);
    }
  }

  // Accept

  lemma AcceptKeepsInv(p: Proto, n: NodeId, f: nat, g: nat)
    requires Inv(p) && CanAccept(p, n, f, g)
    ensures Inv(Accept(p, n, g))
  {
    var p' := Accept(p, n, g);
    AcceptLogs(p, n, f, g);
    AcceptBallots(p, n, f, g);
    ElectionsStand(p, p');
    AcceptKeepsCore(p, n, f, g);
  }

  lemma AcceptLogs(p: Proto, n: NodeId, f: nat, g: nat)
    requires Shape(p) && HistoryOk(p) && FullOk(p) && AcksOk(p) && LeaderLogsOk(p) && CanAccept(p, n, f, g)
    ensures Shape(Accept(p, n, g)) && HistoryOk(Accept(p, n, g)) && FullOk(Accept(p, n, g))
    ensures AcksOk(Accept(p, n, g)) && LeaderLogsOk(Accept(p, n, g))
  {
    assert HistoryOk(Accept(p, n, g)) && FullOk(Accept(p, n, g)) by {
      hide AcksOk, LeaderLogsOk;
      var l := p.logs[p.term[n]];
      TracedPrefix(p, l, g);
      assert TermsUpTo(l[..g], p.term[n]);
      TracedStays(p, Accept(p, n, g));
    }
    AcceptAcks(p, n, f, g);
  }

  /** What a node acknowledged in its term stays: no conflict with the leader lies below it. */
  lemma AcceptAcks(p: Proto, n: NodeId, f: nat, g: nat)
    requires Shape(p) && AcksOk(p) && LeaderLogsOk(p) && CanAccept(p, n, f, g)
    ensures Shape(Accept(p, n, g)) && AcksOk(Accept(p, n, g)) && LeaderLogsOk(Accept(p, n, g))
  {
    var p' := Accept(p, n, g);
    var l := p.logs[p.term[n]];
    forall a | a in p.acks && a.node == n && a.term == p.term[n] ensures Agree(p'.full[n], l, a.index) {
      if f < a.index {
        AgreeAt(p.full[n], l, a.index, f);
        assert false;
      }
      assert l[..g][..a.index] == l[..a.index];
    }
  }

  lemma AcceptBallots(p: Proto, n: NodeId, f: nat, g: nat)
    requires Shape(p) && BallotsOk(p) && CanAccept(p, n, f, g) && Shape(Accept(p, n, g))
    ensures BallotsOk(Accept(p, n, g))
  {
    var p' := Accept(p, n, g);
    assert forall x :: Position(p, x) ==> Position(p', x);
  }

  /** What a node acknowledged and may be committed agrees with its leader, so it is not cut off. */
  lemma AcceptHolds(p: Proto, n: NodeId, f: nat, g: nat, t: Term, i: nat)
    requires Shape(p) && AcksOk(p) && LeaderCompleteness(p) && AcksHeld(p) && CanAccept(p, n, f, g)
    requires Known(p, i, t) && Acked(p, n, t, i) && Choosable(p, t, i)
    ensures Agree(Accept(p, n, g).full[n], p.logs[t], i)
  {
    var u := p.term[n];
    assert Agree(p.full[n], p.logs[t], i);
    assert t <= u;
    assert Agree(p.logs[u], p.logs[t], i);
    if f < i {
      AgreeAt(p.full[n], p.logs[t], i, f);
      AgreeAt(p.logs[u], p.logs[t], i, f);
      assert false;
    }
    assert p.logs[u][..g][..i] == p.logs[u][..i];
  }

  lemma AcceptKeepsCore(p: Proto, n: NodeId, f: nat, g: nat)
    requires Shape(p) && BallotsOk(p) && AcksOk(p) && CanAccept(p, n, f, g)
    requires LeaderCompleteness(p) && AcksHeld(p) && BallotsCover(p)
    requires Shape(Accept(p, n, g)) && BallotsOk(Accept(p, n, g))
    ensures LeaderCompleteness(Accept(p, n, g)) && AcksHeld(Accept(p, n, g)) && BallotsCover(Accept(p, n, g))
  {
    var p' := Accept(p, n, g);
    assert forall u: Term, j: nat :: Known(p', j, u) == Known(p, j, u);
    assert forall m: NodeId, u: Term, i: nat :: Acked(p', m, u, i) == Acked(p, m, u, i);
    forall u: Term, j: nat | Choosable(p', u, j) ensures Choosable(p, u, j) { FewerChoices(p, p', u, j); }
    forall m: NodeId, u: Term, j: nat | m in p'.members && Known(p', j, u) && Acked(p', m, u, j) && Choosable(p', u, j)
      ensures Agree(p'.full[m], p'.logs[u], j)
    {
      if m == n { AcceptHolds(p, n, f, g, u, j); }
    }
    forall k: (NodeId, Term), u: Term, j: nat
      | k in p'.ballots && u < k.1 && Known(p', j, u) && Acked(p', k.0, u, j) && Choosable(p', u, j)
      ensures Agree(PositionLog(p', p'.ballots[k]), p'.logs[u], j)
    {
      assert Agree(PositionLog(p, p.ballots[k]), p.logs[u], j);
    }
  }

  // Elect

  lemma ElectKnown(p: Proto, c: NodeId, q: set<NodeId>, i: nat, t: Term)
    requires Shape(p) && FullOk(p) && CanElect(p, c, q)
    ensures Known(Elect(p, c), i, t) == Known(p, i, t)
  {
    if t == p.term[c] && 0 < i <= |p.full[c]| {
      assert Known(p, i, p.full[c][i - 1].term);
    }
  }

  lemma ElectLogs(p: Proto, c: NodeId, q: set<NodeId>)
    requires Shape(p) && HistoryOk(p) && FullOk(p) && AcksOk(p) && LeaderLogsOk(p) && CanElect(p, c, q)
    ensures Shape(Elect(p, c)) && HistoryOk(Elect(p, c)) && FullOk(Elect(p, c))
    ensures AcksOk(Elect(p, c)) && LeaderLogsOk(Elect(p, c))
  {
    TracedStays(p, Elect(p, c));
  }

  lemma ElectBallots(p: Proto, c: NodeId, q: set<NodeId>)
    requires Shape(p) && BallotsOk(p) && ElectedOk(p) && CanElect(p, c, q) && Shape(Elect(p, c))
    ensures BallotsOk(Elect(p, c)) && ElectedOk(Elect(p, c))
    ensures forall k :: k in p.ballots ==> PositionLog(Elect(p, c), p.ballots[k]) == PositionLog(p, p.ballots[k])
  {
    var p' := Elect(p, c);
    assert forall x :: Position(p, x) ==> Position(p', x) && PositionLog(p', x) == PositionLog(p, x);
    forall t | t in p'.leaders ensures exists r :: WonBy(p', t, p'.leaders[t], r) {
      if t == p.term[c] {
        assert WonBy(p', t, c, q);
      } else {
        var r :| WonBy(p, t, p.leaders[t], r);
        assert WonBy(p', t, p'.leaders[t], r);
      }
    }
  }

  /** Leader completeness at an election: the two quorums share a voter that acknowledged `i`. */
  lemma ElectComplete(p: Proto, c: NodeId, q: set<NodeId>, t: Term, i: nat)
    requires Shape(p) && BallotsOk(p) && BallotsCover(p) && CanElect(p, c, q)
    requires t < p.term[c] && Known(p, i, t) && Choosable(p, t, i)
    ensures Agree(p.full[c], p.logs[t], i)
  {
    var r :| Quorum(p.members, r) && AllMayAck(p, r, t, i);
    var v := QuorumsMeet(p.members, q, r);
    assert (v, p.term[c]) in p.ballots && SelfVoted(p, (v, p.term[c]));
    assert MayAck(p, v, t, i);
    assert Acked(p, v, t, i);
    assert Agree(PositionLog(p, p.ballots[(v, p.term[c])]), p.logs[t], i);
  }

  lemma SameAcks(p: Proto, p': Proto, n: NodeId, t: Term, i: nat)
    requires p'.acks == p.acks
    ensures Acked(p', n, t, i) == Acked(p, n, t, i)
  {
  }

  lemma KnownTerm(p: Proto, i: nat, t: Term)
    requires Known(p, i, t)
    ensures t in p.logs
  {
  }

  lemma ElectKeepsCore(p: Proto, c: NodeId, q: set<NodeId>)
    requires Shape(p) && FullOk(p) && BallotsOk(p) && CanElect(p, c, q)
    requires LeaderCompleteness(p) && AcksHeld(p) && BallotsCover(p)
    requires Shape(Elect(p, c)) && BallotsOk(Elect(p, c))
    requires forall k :: k in p.ballots ==> PositionLog(Elect(p, c), p.ballots[k]) == PositionLog(p, p.ballots[k])
    ensures LeaderCompleteness(Elect(p, c)) && AcksHeld(Elect(p, c)) && BallotsCover(Elect(p, c))
  {
    hide FullOk, Agree, Choosable, Acked, PositionLog;
    var p' := Elect(p, c);
    forall u: Term, j: nat ensures Known(p', j, u) == Known(p, j, u) { ElectKnown(p, c, q, j, u); }
    forall m: NodeId, u: Term, i: nat ensures Acked(p', m, u, i) == Acked(p, m, u, i) { SameAcks(p, p', m, u, i); }
    forall u: Term, j: nat | Choosable(p', u, j) ensures Choosable(p, u, j) { FewerChoices(p, p', u, j); }
    forall t: Term, u: Term, i: nat | t in p'.logs && u in p'.logs && t < u && Known(p', i, t) && Choosable(p', t, i)
      ensures Agree(p'.logs[u], p'.logs[t], i)
    {
      KnownTerm(p, i, t);
      if u == p.term[c] { ElectComplete(p, c, q, t, i); }
    }
    forall k: (NodeId, Term), u: Term, j: nat
      | k in p'.ballots && u < k.1 && Known(p', j, u) && Acked(p', k.0, u, j) && Choosable(p', u, j)
      ensures Agree(PositionLog(p', p'.ballots[k]), p'.logs[u], j)
    {
      assert Agree(PositionLog(p, p.ballots[k]), p.logs[u], j);
    }
  }

  lemma ElectKeepsInv(p: Proto, c: NodeId, q: set<NodeId>)
    requires Inv(p) && CanElect(p, c, q)
    ensures Inv(Elect(p, c))
  {
    ElectLogs(p, c, q);
    ElectBallots(p, c, q);
    ElectKeepsCore(p, c, q);
  }

  // Write

  lemma WriteKnown(p: Proto, c: NodeId, e: LogEntry, i: nat, t: Term)
    requires Shape(p) && LeaderLogsOk(p) && CanWrite(p, c, e)
    ensures Known(Write(p, c, e), i, t) == (Known(p, i, t) || (t == e.term && i == e.index))
  {
  }

  lemma WriteTraced(p: Proto, c: NodeId, e: LogEntry)
    requires Shape(p) && CanWrite(p, c, e) && Traced(p, p.full[c]) && LeaderLogsOk(p)
    ensures Traced(Write(p, c, e), p.full[c] + [e])
  {
    var p' := Write(p, c, e);
    var l := p.full[c] + [e];
    TracedStays(p, p');
    forall k | 0 <= k < |l|
      ensures l[k].index == k + 1 && Known(p', k + 1, l[k].term) && Agree(l, p'.logs[l[k].term], k + 1)
    {
      if k < |p.full[c]| {
        assert l[..k + 1] == p.full[c][..k + 1];
      }
    }
  }

  lemma WriteLogs(p: Proto, c: NodeId, e: LogEntry)
    requires Shape(p) && HistoryOk(p) && FullOk(p) && CanWrite(p, c, e) && LeaderLogsOk(p) && Shape(Write(p, c, e))
    ensures HistoryOk(Write(p, c, e)) && FullOk(Write(p, c, e))
  {
    WriteTraced(p, c, e);
    TracedStays(p, Write(p, c, e));
    assert TermsUpTo(p.full[c] + [e], p.term[c]);
  }

  lemma WriteShape(p: Proto, c: NodeId, e: LogEntry)
    requires Shape(p) && AcksOk(p) && LeaderLogsOk(p) && CanWrite(p, c, e)
    ensures Shape(Write(p, c, e)) && AcksOk(Write(p, c, e)) && LeaderLogsOk(Write(p, c, e))
  {
    var p' := Write(p, c, e);
    assert p'.leaders.Keys == p'.logs.Keys;
  }

  lemma WriteBallots(p: Proto, c: NodeId, e: LogEntry)
    requires Shape(p) && BallotsOk(p) && LeaderLogsOk(p) && CanWrite(p, c, e) && Shape(Write(p, c, e))
    ensures BallotsOk(Write(p, c, e))
    ensures forall k :: k in p.ballots ==> PositionLog(Write(p, c, e), p.ballots[k]) == PositionLog(p, p.ballots[k])
  {
    var p' := Write(p, c, e);
    assert forall x :: Position(p, x) ==> Position(p', x) && PositionLog(p', x) == PositionLog(p, x);
  }

  /** Once a later leader exists, nothing new of an earlier term can gather a quorum. */
  lemma WriteTooLate(p: Proto, c: NodeId, e: LogEntry, u: Term)
    requires Shape(p) && BallotsOk(p) && ElectedOk(p) && AcksOk(p) && LeaderLogsOk(p) && CanWrite(p, c, e)
    requires u in p.logs && e.term < u
    ensures !Choosable(Write(p, c, e), e.term, e.index)
  {
    var p' := Write(p, c, e);
    if Choosable(p', e.term, e.index) {
      var r :| Quorum(p'.members, r) && AllMayAck(p', r, e.term, e.index);
      var q :| WonBy(p, u, p.leaders[u], q);
      var v := QuorumsMeet(p.members, q, r);
      assert false;
    }
  }

  lemma KnownLogs(p: Proto, c: NodeId, e: LogEntry, u: Term)
    requires Shape(p) && LeaderLogsOk(p) && CanWrite(p, c, e) && u in Write(p, c, e).logs
    ensures u in p.logs
  {
  }

  lemma WriteAgrees(p: Proto, c: NodeId, e: LogEntry, t: Term, u: Term, i: nat)
    requires Shape(p) && LeaderLogsOk(p) && CanWrite(p, c, e)
    requires t in p.logs && u in p.logs && Agree(p.logs[u], p.logs[t], i)
    ensures Agree(Write(p, c, e).logs[u], Write(p, c, e).logs[t], i)
  {
    var p' := Write(p, c, e);
    assert p'.logs[u][..i] == p.logs[u][..i];
    assert p'.logs[t][..i] == p.logs[t][..i];
  }

  lemma WriteComplete(p: Proto, c: NodeId, e: LogEntry)
    requires Shape(p) && BallotsOk(p) && ElectedOk(p) && AcksOk(p) && LeaderLogsOk(p) && CanWrite(p, c, e)
    requires LeaderCompleteness(p)
    ensures LeaderCompleteness(Write(p, c, e))
  {
    hide Shape, BallotsOk, ElectedOk, AcksOk, LeaderLogsOk, Agree, Known, Choosable;
    var p' := Write(p, c, e);
    forall t: Term, u: Term, i: nat | t in p'.logs && u in p'.logs && t < u && Known(p', i, t) && Choosable(p', t, i)
      ensures Agree(p'.logs[u], p'.logs[t], i)
    {
      WriteKnown(p, c, e, i, t);
      KnownLogs(p, c, e, u);
      if t == e.term && i == e.index {
        WriteTooLate(p, c, e, u);
      } else {
        KnownLogs(p, c, e, t);
        FewerChoices(p, p', t, i);
        WriteAgrees(p, c, e, t, u, i);
      }
    }
  }

  lemma WriteHeld(p: Proto, c: NodeId, e: LogEntry)
    requires Shape(p) && BallotsOk(p) && AcksOk(p) && LeaderLogsOk(p) && CanWrite(p, c, e)
    requires AcksHeld(p) && BallotsCover(p)
    requires Shape(Write(p, c, e)) && BallotsOk(Write(p, c, e))
    requires forall k :: k in p.ballots ==> PositionLog(Write(p, c, e), p.ballots[k]) == PositionLog(p, p.ballots[k])
    ensures AcksHeld(Write(p, c, e)) && BallotsCover(Write(p, c, e))
  {
    var p' := Write(p, c, e);
    assert forall m: NodeId, u: Term, i: nat :: Acked(p', m, u, i) == Acked(p, m, u, i);
    forall m: NodeId, u: Term, j: nat | Known(p', j, u) && Acked(p', m, u, j) && Choosable(p', u, j)
      ensures Known(p, j, u) && Choosable(p, u, j) && p'.logs[u][..j] == p.logs[u][..j]
    {
      WriteKnown(p, c, e, j, u);
      FewerChoices(p, p', u, j);
    }
    forall m: NodeId, u: Term, j: nat | m in p'.members && Known(p', j, u) && Acked(p', m, u, j) && Choosable(p', u, j)
      ensures Agree(p'.full[m], p'.logs[u], j)
    {
      assert Agree(p.full[m], p.logs[u], j);
      assert p'.full[m][..j] == p.full[m][..j];
    }
    forall k: (NodeId, Term), u: Term, j: nat
      | k in p'.ballots && u < k.1 && Known(p', j, u) && Acked(p', k.0, u, j) && Choosable(p', u, j)
      ensures Agree(PositionLog(p', p'.ballots[k]), p'.logs[u], j)
    {
      assert Agree(PositionLog(p, p.ballots[k]), p.logs[u], j);
    }
  }

  lemma WriteKeepsInv(p: Proto, c: NodeId, e: LogEntry)
    requires Inv(p) && CanWrite(p, c, e)
    ensures Inv(Write(p, c, e))
  {
    WriteShape(p, c, e);
    WriteLogs(p, c, e);
    WriteBallots(p, c, e);
    ElectionsStand(p, Write(p, c, e));
    WriteComplete(p, c, e);
    WriteHeld(p, c, e);
  }

  // ---------- what the invariant gives ----------

  /** At most one node can gather a quorum of votes in a term. */
  lemma ElectionSafety(p: Proto, t: Term, c: NodeId, q: set<NodeId>, d: NodeId, r: set<NodeId>)
    requires WonBy(p, t, c, q) && WonBy(p, t, d, r)
    ensures c == d
  {
    var v := QuorumsMeet(p.members, q, r);
    assert (v, t) in p.ballots;
  }

  lemma CommittedInLater(p: Proto, t: Term, i: nat, u: Term)
    requires LeaderCompleteness(p) && Committed(p, t, i) && t <= u && u in p.logs
    ensures Agree(p.logs[u], p.logs[t], i)
  {
    var q :| Quorum(p.members, q) && AllAcked(p, q, t, i);
    assert AllMayAck(p, q, t, i);
  }

  /** Any two committed prefixes agree as far as both go. */
  lemma CommittedComparable(p: Proto, t: Term, i: nat, u: Term, j: nat, k: nat)
    requires LeaderCompleteness(p) && Committed(p, t, i) && Committed(p, u, j) && k <= i && k <= j
    ensures Agree(p.logs[t], p.logs[u], k)
  {
    if t <= u {
      CommittedInLater(p, t, i, u);
      AgreeLess(p.logs[u], p.logs[t], i, k);
    } else {
      CommittedInLater(p, u, j, t);
      AgreeLess(p.logs[t], p.logs[u], j, k);
    }
  }

  // ---------- facts are never withdrawn ----------

  ghost predicate Extends(p: Proto, p': Proto) {
    && p'.members == p.members
    && (forall n :: n in p.term ==> n in p'.term && p.term[n] <= p'.term[n])
    && (forall k :: k in p.ballots ==> k in p'.ballots && p'.ballots[k] == p.ballots[k])
    && (forall t :: t in p.leaders ==> t in p'.leaders && p'.leaders[t] == p.leaders[t])
    && (forall t :: t in p.logs ==> t in p'.logs && p.logs[t] <= p'.logs[t])
    && p.acks <= p'.acks
  }

  /** Only `n` moved: what the other nodes hold, voted and lead is as before. */
  ghost predicate OnlyMoved(p: Proto, p': Proto, n: NodeId) {
    && (forall m :: m in p.term && m != n ==> m in p'.term && p'.term[m] == p.term[m])
    && (forall m :: m in p.full && m != n ==> m in p'.full && p'.full[m] == p.full[m])
    && (forall k :: k in p'.ballots && k.0 != n ==> k in p.ballots)
    && (forall t :: t in p'.leaders && p'.leaders[t] != n ==> t in p.leaders)
    && (forall t :: t in p.logs && t in p.leaders && p.leaders[t] != n ==> t in p'.logs && p'.logs[t] == p.logs[t])
  }

  /** A leader's log changes only while the leader is in its term. */
  ghost predicate WritesNow(p: Proto, p': Proto, n: NodeId) {
    forall t :: t in p'.logs && (t in p.logs ==> p'.logs[t] != p.logs[t]) ==>
      n in p'.term && t == p'.term[n] && t in p'.leaders && p'.leaders[t] == n
  }

  ghost predicate Moved(p: Proto, p': Proto, n: NodeId) {
    Extends(p, p') && OnlyMoved(p, p', n) && WritesNow(p, p', n)
  }

  lemma MovedTrans(p: Proto, p': Proto, p'': Proto, n: NodeId)
    requires Shape(p) && Moved(p, p', n) && Moved(p', p'', n)
    requires p'.logs == p.logs || (n in p'.term && n in p''.term && p''.term[n] == p'.term[n])
    ensures Moved(p, p'', n)
  {
    hide Extends, OnlyMoved, WritesNow;
    ExtendsTrans(p, p', p'');
    OnlyMovedTrans(p, p', p'', n);
    WritesNowTrans(p, p', p'', n);
  }

  lemma ExtendsTrans(p: Proto, p': Proto, p'': Proto)
    requires Extends(p, p') && Extends(p', p'')
    ensures Extends(p, p'')
  {
  }

  lemma OnlyMovedTrans(p: Proto, p': Proto, p'': Proto, n: NodeId)
    requires Shape(p) && Extends(p, p') && Extends(p', p'') && OnlyMoved(p, p', n) && OnlyMoved(p', p'', n)
    ensures OnlyMoved(p, p'', n)
  {
  }

  lemma WritesNowTrans(p: Proto, p': Proto, p'': Proto, n: NodeId)
    requires Moved(p, p', n) && Moved(p', p'', n)
    requires p'.logs == p.logs || (n in p'.term && n in p''.term && p''.term[n] == p'.term[n])
    ensures WritesNow(p, p'', n)
  {
    hide OnlyMoved;
    forall t | t in p''.logs && (t in p.logs ==> p''.logs[t] != p.logs[t])
      ensures n in p''.term && t == p''.term[n] && t in p''.leaders && p''.leaders[t] == n
    {
      assert (t in p'.logs ==> p''.logs[t] != p'.logs[t]) || (t in p.logs ==> p'.logs[t] != p.logs[t]);
    }
  }

  lemma AckedStays(p: Proto, p': Proto, n: NodeId, t: Term, i: nat)
    requires Extends(p, p') && Acked(p, n, t, i)
    ensures Acked(p', n, t, i)
  {
    var a :| a in p.acks && a.node == n && a.term == t && i <= a.index;
    assert a in p'.acks;
  }

  lemma CommittedStays(p: Proto, p': Proto, t: Term, i: nat)
    requires Extends(p, p') && Committed(p, t, i)
    ensures Committed(p', t, i)
  {
    var q :| Quorum(p.members, q) && AllAcked(p, q, t, i);
    forall n | n in q ensures Acked(p', n, t, i) { AckedStays(p, p', n, t, i); }
    assert AllAcked(p', q, t, i);
  }

  // Each step moves one node and withdraws nothing.

  lemma BumpMoves(p: Proto, n: NodeId, t: Term)
    requires Shape(p) && CanBump(p, n, t)
    ensures Moved(p, Bump(p, n, t), n)
  {
  }

  lemma VoteMoves(p: Proto, v: NodeId, b: Ballot)
    requires Shape(p) && CanVote(p, v, b)
    ensures Moved(p, Vote(p, v, b), v)
  {
  }

  lemma ElectMoves(p: Proto, c: NodeId, q: set<NodeId>)
    requires Shape(p) && CanElect(p, c, q)
    ensures Moved(p, Elect(p, c), c)
  {
  }

  lemma WriteMoves(p: Proto, c: NodeId, e: LogEntry)
    requires Shape(p) && LeaderLogsOk(p) && CanWrite(p, c, e)
    ensures Moved(p, Write(p, c, e), c)
  {
  }

  lemma AcceptMoves(p: Proto, n: NodeId, f: nat, g: nat)
    requires Shape(p) && CanAccept(p, n, f, g)
    ensures Moved(p, Accept(p, n, g), n)
  {
  }

  lemma AckMoves(p: Proto, n: NodeId, i: nat)
    requires Shape(p) && CanAck(p, n, i)
    ensures Moved(p, AckTo(p, n, i), n) && Acked(AckTo(p, n, i), n, p.term[n], i)
  {
    assert Ack(n, p.term[n], i) in AckTo(p, n, i).acks;
  }

  lemma NothingMoves(p: Proto, n: NodeId)
    ensures Moved(p, p, n)
  {
  }
}
