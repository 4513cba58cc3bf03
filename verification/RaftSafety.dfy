/**
 What holds in every state of every run of a cluster: lost, repeated and reordered messages, crashes
 inside an event, restarts, local snapshots and installed snapshots are all part of a run. A crash after
 a received snapshot was saved is part of a run when what it leaves is safe, as `SavedSafely` says.
 */
module RaftSafety {
  import opened Basics
  import opened RaftTypes
  import opened RaftLog
  import opened RaftNode
  import opened RaftCluster
  import opened RaftSim
  import opened RaftSteps
  import opened RaftFollower
  import opened RaftRestart
  import opened RaftNext
  import P = RaftProtocol
  import T = RaftTorn

  // ---------- two moments of one run ----------

  lemma {:induction false} Later(ps: seq<P.Proto>, i: nat, j: nat)
    requires i <= j < |ps| && forall k :: 0 <= k < |ps| - 1 ==> P.Extends(ps[k], ps[k + 1])
    ensures P.Extends(ps[i], ps[j])
    decreases j
  {
    if i < j {
      Later(ps, i, j - 1);
      assert P.Extends(ps[j - 1], ps[j - 1 + 1]);
      P.ExtendsTrans(ps[i], ps[j - 1], ps[j]);
    } else {
      ExtendsSelf(ps[i]);
    }
  }

  lemma ExtendsSelf(p: P.Proto)
    ensures P.Extends(p, p)
  {
  }

  /** Two moments of a run, tied to two states of the protocol, the later extending the earlier. */
  lemma TwoMoments(trace: seq<Cluster>, i: nat, j: nat) returns (p: P.Proto, q: P.Proto)
    requires Run(trace) && i <= j < |trace|
    ensures Sim(trace[i], p) && Sim(trace[j], q) && P.Extends(p, q)
  {
    hide Sim, P.Extends, Run;
    var ps := RunSim(trace);
    Later(ps, i, j);
    p, q := ps[i], ps[j];
  }

  // ---------- election safety ----------

  predicate Leads(c: Cluster, n: NodeId, t: Term) {
    n in c.nodes && c.nodes[n].raft.role == Leader && c.nodes[n].raft.term == t
  }

  lemma LeadsIn(c: Cluster, p: P.Proto, n: NodeId, t: Term)
    requires Sim(c, p) && Leads(c, n, t)
    ensures t in p.leaders && p.leaders[t] == n && t in p.logs && n in p.full && p.full[n] == p.logs[t]
  {
    hide P.Inv;
    assert NodeOk(p, n, c.nodes[n].raft);
    LeaderFacts(p, t);
  }

  /** At most one node is ever leader in a term, at any two moments of a run. */
  lemma OneLeaderPerTerm(trace: seq<Cluster>, i: nat, j: nat, a: NodeId, b: NodeId, t: Term)
    requires Run(trace) && i < |trace| && j < |trace| && Leads(trace[i], a, t) && Leads(trace[j], b, t)
    ensures a == b
  {
    hide Run, Sim;
    if j < i {
      OneLeaderPerTerm(trace, j, i, b, a, t);
    } else {
      var p, q := TwoMoments(trace, i, j);
      LeadsIn(trace[i], p, a, t);
      LeadsIn(trace[j], q, b, t);
    }
  }

  // ---------- log matching ----------

  /** The two logs agree wherever both still hold an entry, up to index `k`. */
  ghost predicate SameUpTo(a: Log, b: Log, k: LogIndex) {
    && (forall m: LogIndex :: m <= k && Get(a, m).Some? && Get(b, m).Some? ==> Get(a, m) == Get(b, m))
    && (forall m: LogIndex :: m <= k && TermAt(a, m).Some? && TermAt(b, m).Some? ==> TermAt(a, m) == TermAt(b, m))
  }

  lemma HistoriesAgree(a: Log, b: Log, fa: seq<LogEntry>, fb: seq<LogEntry>, k: LogIndex)
    requires Represents(a, fa) && Represents(b, fb) && P.Agree(fa, fb, k)
    ensures SameUpTo(a, b, k)
  {
    hide Represents, Get, TermAt;
    forall m: LogIndex | m <= k
      ensures Get(a, m).Some? && Get(b, m).Some? ==> Get(a, m) == Get(b, m)
      ensures TermAt(a, m).Some? && TermAt(b, m).Some? ==> TermAt(a, m) == TermAt(b, m)
    {
      RepresentsGet(a, fa, m);
      RepresentsGet(b, fb, m);
      if 0 < m { P.AgreeAt(fa, fb, k, m - 1); }
    }
  }

  lemma NodeHistory(c: Cluster, p: P.Proto, n: NodeId)
    requires Sim(c, p) && n in c.nodes
    ensures n in p.full && Represents(c.nodes[n].raft.log, p.full[n]) && P.Traced(p, p.full[n])
    ensures c.nodes[n].raft.commitIndex <= |p.full[n]|
    ensures CommitKnown(p, p.full[n], c.nodes[n].raft.commitIndex, c.nodes[n].raft.term)
  {
    hide P.Inv, CommitKnown;
    assert NodeOk(p, n, c.nodes[n].raft);
    FullFacts(p, n);
  }

  /**
   Two logs of a run, of any nodes at any moments, that give the same term to one index agree on
   everything up to it, whether held as an entry or only as the boundary of a compacted prefix.
   */
  lemma LogsMatch(trace: seq<Cluster>, i: nat, j: nat, a: NodeId, b: NodeId, k: LogIndex)
    requires Run(trace) && i < |trace| && j < |trace| && a in trace[i].nodes && b in trace[j].nodes
    requires 0 < k && TermAt(trace[i].nodes[a].raft.log, k).Some?
    requires TermAt(trace[i].nodes[a].raft.log, k) == TermAt(trace[j].nodes[b].raft.log, k)
    ensures SameUpTo(trace[i].nodes[a].raft.log, trace[j].nodes[b].raft.log, k)
  {
    hide Run, Sim, TermAt, Get, Represents, P.Traced, CommitKnown;
    if j < i {
      LogsMatch(trace, j, i, b, a, k);
    } else {
      var p, q := TwoMoments(trace, i, j);
      NodeHistory(trace[i], p, a);
      NodeHistory(trace[j], q, b);
      assert P.Traced(q, p.full[a]) by { P.TracedStays(p, q); }
      RepresentsGet(trace[i].nodes[a].raft.log, p.full[a], k);
      RepresentsGet(trace[j].nodes[b].raft.log, q.full[b], k);
      P.LogMatching(q, p.full[a], q.full[b], k);
      HistoriesAgree(trace[i].nodes[a].raft.log, trace[j].nodes[b].raft.log, p.full[a], q.full[b], k);
    }
  }

  // ---------- what is committed ----------

  /** Committed entries of two nodes, at any two moments, are the same. */
  lemma CommittedEntriesAgree(trace: seq<Cluster>, i: nat, j: nat, a: NodeId, b: NodeId)
    requires Run(trace) && i < |trace| && j < |trace| && a in trace[i].nodes && b in trace[j].nodes
    ensures SameUpTo(trace[i].nodes[a].raft.log, trace[j].nodes[b].raft.log,
                     Min(trace[i].nodes[a].raft.commitIndex, trace[j].nodes[b].raft.commitIndex))
  {
    hide Run, Sim, TermAt, Get, Represents, P.Traced, CommitKnown, P.Extends, P.Inv;
    if j < i {
      CommittedEntriesAgree(trace, j, i, b, a);
    } else {
      var p, q := TwoMoments(trace, i, j);
      NodeHistory(trace[i], p, a);
      NodeHistory(trace[j], q, b);
      var sa, sb := trace[i].nodes[a].raft, trace[j].nodes[b].raft;
      var k := Min(sa.commitIndex, sb.commitIndex);
      CommitKnownStays(p, q, p.full[a], sa.commitIndex, sa.term, sa.term);
      CommitKnownLess(q, p.full[a], sa.commitIndex, k, sa.term);
      CommitKnownLess(q, q.full[b], sb.commitIndex, k, sb.term);
      SimComplete(trace[j], q);
      KnownAgree(q, p.full[a], q.full[b], k, sa.term, sb.term);
      HistoriesAgree(sa.log, sb.log, p.full[a], q.full[b], k);
    }
  }

  lemma SimComplete(c: Cluster, p: P.Proto)
    requires Sim(c, p)
    ensures P.Inv(p) && P.LeaderCompleteness(p)
  {
  }

  lemma KnownAgree(p: P.Proto, a: seq<LogEntry>, b: seq<LogEntry>, k: nat, t: Term, u: Term)
    requires P.LeaderCompleteness(p) && CommitKnown(p, a, k, t) && CommitKnown(p, b, k, u)
    ensures P.Agree(a, b, k)
  {
    if k != 0 {
      var v: Term, x: nat :| CommitBy(p, a, k, t, v, x);
      var w: Term, y: nat :| CommitBy(p, b, k, u, w, y);
      P.CommittedComparable(p, v, x, w, y, k);
      P.AgreeTrans(a, p.logs[v], p.logs[w], k);
    }
  }

  // ---------- state machine safety ----------

  lemma DeliveredAgree(p: P.Proto, t: Term, u: Term, d: LogEntry, e: LogEntry)
    requires P.LeaderCompleteness(p) && DeliveryOk(p, t, d) && DeliveryOk(p, u, e) && d.index == e.index
    ensures d == e
  {
    var v: Term, x: nat :| DeliveredBy(p, t, d, v, x);
    var w: Term, y: nat :| DeliveredBy(p, u, e, w, y);
    P.CommittedComparable(p, v, x, w, y, d.index);
    P.AgreeAt(p.logs[v], p.logs[w], d.index, d.index - 1);
  }

  /** No two nodes, nor one node before and after a restart, ever apply different entries at one index. */
  lemma StateMachinesAgree(trace: seq<Cluster>, i: nat, j: nat, x: Delivery, y: Delivery)
    requires Run(trace) && i < |trace| && j < |trace| && x in trace[i].delivered && y in trace[j].delivered
    requires x.entry.index == y.entry.index
    ensures x.entry == y.entry
  {
    hide Run, P.Inv, P.Extends, DeliveryOk, NodesOk, MessageOk, P.LeaderCompleteness;
    if j < i {
      StateMachinesAgree(trace, j, i, y, x);
    } else {
      var p, q := TwoMoments(trace, i, j);
      DeliveryStays(p, q, x.term, x.entry);
      SimComplete(trace[j], q);
      DeliveredAgree(q, x.term, y.term, x.entry, y.entry);
    }
  }

  // ---------- leader completeness ----------

  lemma DeliveredHeld(p: P.Proto, t: Term, e: LogEntry, u: Term)
    requires P.LeaderCompleteness(p) && DeliveryOk(p, t, e) && u in p.logs && t <= u
    ensures 0 < e.index <= |p.logs[u]| && p.logs[u][e.index - 1] == e
  {
    var v: Term, x: nat :| DeliveredBy(p, t, e, v, x);
    P.CommittedInLater(p, v, x, u);
    P.AgreeAt(p.logs[u], p.logs[v], x, e.index - 1);
  }

  /** Every entry ever applied is held by every leader of that or a later term, or lies in its snapshot. */
  lemma LeaderHoldsApplied(trace: seq<Cluster>, i: nat, j: nat, x: Delivery, n: NodeId, t: Term)
    requires Run(trace) && i <= j < |trace| && x in trace[i].delivered && Leads(trace[j], n, t) && x.term <= t
    ensures var l := trace[j].nodes[n].raft.log;
            if x.entry.index <= l.baseIndex then x.entry.index == l.baseIndex ==> l.baseTerm == x.entry.term
            else Get(l, x.entry.index) == Some(x.entry)
  {
    hide Run, P.Inv, P.Extends, DeliveryOk, NodesOk, MessageOk, P.LeaderCompleteness, Represents, Get;
    var p, q := TwoMoments(trace, i, j);
    DeliveryStays(p, q, x.term, x.entry);
    SimComplete(trace[j], q);
    LeadsIn(trace[j], q, n, t);
    DeliveredHeld(q, x.term, x.entry, t);
    NodeHistory(trace[j], q, n);
    RepresentsGet(trace[j].nodes[n].raft.log, q.full[n], x.entry.index);
    assert q.full[n] == q.logs[t];
  }

  /** What any node has committed is in the log of every leader of that node's or a later term. */
  lemma LeaderHoldsCommitted(trace: seq<Cluster>, i: nat, j: nat, a: NodeId, n: NodeId, t: Term)
    requires Run(trace) && i <= j < |trace| && a in trace[i].nodes && Leads(trace[j], n, t) &&
             trace[i].nodes[a].raft.term <= t
    ensures var s := trace[i].nodes[a].raft;
            s.commitIndex <= LastIndex(trace[j].nodes[n].raft.log) &&
            SameUpTo(s.log, trace[j].nodes[n].raft.log, s.commitIndex)
  {
    hide Run, Sim, TermAt, Get, Represents, P.Traced, CommitKnown, P.Extends, P.Inv, LastIndex;
    var p, q := TwoMoments(trace, i, j);
    NodeHistory(trace[i], p, a);
    NodeHistory(trace[j], q, n);
    LeadsIn(trace[j], q, n, t);
    SimComplete(trace[j], q);
    var s := trace[i].nodes[a].raft;
    CommitKnownStays(p, q, p.full[a], s.commitIndex, s.term, t);
    CommitInLeaderLog(q, p.full[a], s.commitIndex, t);
    RepresentsEnd(trace[j].nodes[n].raft.log, q.full[n]);
    HistoriesAgree(s.log, trace[j].nodes[n].raft.log, p.full[a], q.full[n], s.commitIndex);
  }

  // ---------- nothing committed is ever overwritten ----------

  /** The refusal of entries that contradict committed ones is never needed among these nodes. */
  lemma AppendNeverRefused(trace: seq<Cluster>, i: nat, n: NodeId, m: Message)
    requires Run(trace) && i < |trace| && n in trace[i].nodes && Packet(n, m) in trace[i].net && m.AppendEntries?
    requires trace[i].nodes[n].raft.term <= m.term
    ensures var s := trace[i].nodes[n].raft;
            Consistent(s, m) ==> AppendAt(s.log, m.prevLogIndex + 1, m.entries, s.commitIndex) != Refused
  {
    hide Run, P.Inv, NodeOk, DiskRests, P.Moved, P.Extends, AppendAt, Consistent, AppendOk, StepDown;
    var p, q := TwoMoments(trace, i, i);
    var s := trace[i].nodes[n].raft;
    assert MessageOk(p, n, m) by { assert Packet(n, m) in trace[i].net; }
    if Consistent(s, m) {
      if s.term < m.term {
        var p' := StepDownOk(p, n, s, m.term);
        MovedExtends(p, p', n);
        MessageStays(p, p', n, m);
        SteppedDown(s, m);
        NeverRefused(p', n, StepDown(s, m.term), m);
      } else {
        NeverRefused(p, n, s, m);
      }
    }
  }

  lemma SteppedDown(s: NodeState, m: Message)
    requires s.term < m.term && m.AppendEntries?
    ensures var s1 := StepDown(s, m.term);
            s1.log == s.log && s1.commitIndex == s.commitIndex && s1.term == m.term &&
            (Consistent(s1, m) <==> Consistent(s, m))
  {
  }

  // ---------- restarts ----------

  /** From the disk of any node in any state, a restart succeeds and rebuilds term, vote and log. */
  lemma RestartRebuilds(trace: seq<Cluster>, i: nat, n: NodeId)
    requires Run(trace) && i < |trace| && n in trace[i].nodes
    ensures var node := trace[i].nodes[n];
            var r := Restore(node.raft.me, node.raft.peers, node.raft.noopOnElect, node.disk);
            r.Some? && r.value.term == node.raft.term && r.value.votedFor == node.raft.votedFor &&
            r.value.log == node.raft.log
  {
    hide Run, P.Inv, P.Extends, DeliveryOk, MessageOk, Restore, PeersOf, LeaderOk, CandidateOk, CommitKnown;
    var p, q := TwoMoments(trace, i, i);
    var node := trace[i].nodes[n];
    assert NodeOk(p, n, node.raft) && DiskRests(node.raft, node.disk);
    RestingRebuilds(p, n, node.raft, node.disk);
  }

  lemma RestingRebuilds(p: P.Proto, n: NodeId, s: NodeState, d: Disk)
    requires n in p.full && NodeOk(p, n, s) && DiskRests(s, d)
    ensures var r := Restore(s.me, s.peers, s.noopOnElect, d);
            r.Some? && r.value.term == s.term && r.value.votedFor == s.votedFor && r.value.log == s.log
  {
    hide P.Inv, Restore, PeersOf, LeaderOk, CandidateOk, CommitKnown;
    hide Above;
    var full := p.full[n];
    var j: nat := s.log.baseIndex;
    if s.pending == [] {
      HeldFrom(s.log, d, full);
    } else {
      j :| TrimsTo(d.log, j, s.log);
      TrimmedFrom(s.log, d, full, j);
    }
    RestoreIs(n, s.peers, s.noopOnElect, d, full, j);
  }

  /** A crash in the middle of writing an event never leaves a disk that cannot be restarted from. */
  lemma TornRestartSucceeds(trace: seq<Cluster>, i: nat, n: NodeId, ev: Event, env: Env, d: Disk)
    requires Run(trace) && i < |trace| && Enabled(trace[i], n, ev) && LeavesDisk(trace[i].nodes[n], ev, env, d)
    ensures var s := trace[i].nodes[n].raft; Restore(s.me, s.peers, s.noopOnElect, d).Some?
  {
    hide Run, P.Inv, P.Extends, P.Moved, DeliveryOk, NodeOk, DiskRests, MessageOk, Restore, LeavesDisk, DiskFor;
    var p, q := TwoMoments(trace, i, i);
    var s := trace[i].nodes[n].raft;
    var p' := T.TornOk(p, n, trace[i].nodes[n], ev, env, d);
    MovedMembers(p, p', n);
    PeersStay(p, n, s);
    RestoreOk(p', n, s.peers, s.noopOnElect, d);
  }

  // ---------- apply order ----------

  lemma ApplyOrder(trace: seq<Cluster>, i: nat, n: NodeId)
    requires Run(trace) && i < |trace| && n in trace[i].nodes
    ensures var s := trace[i].nodes[n].raft; s.log.baseIndex <= s.lastApplied <= s.commitIndex <= LastIndex(s.log)
  {
    hide Run, P.Inv, P.Extends, DeliveryOk, MessageOk, PeersOf, CommitKnown, Represents;
    var p, q := TwoMoments(trace, i, i);
    assert NodeOk(p, n, trace[i].nodes[n].raft);
    RepresentsEnd(trace[i].nodes[n].raft.log, p.full[n]);
  }
}
