/** The follower's side: accepting entries and snapshots, and what it then holds and acknowledges. */
module RaftFollower {
  import opened Basics
  import opened RaftTypes
  import opened RaftLog
  import opened RaftNode
  import opened RaftCluster
  import opened RaftSim
  import opened RaftSteps
  import P = RaftProtocol

  // ---------- the log part of AppendEntries ----------

  /**
   Scanning the leader's entries: everything skipped agrees with the leader's log `l`, and the scan
   stops at the end of the message, at a term that differs, or exactly at the end of `full`.
   */
  lemma {:induction false} ScanAgrees(p: P.Proto, log: Log, full: seq<LogEntry>, l: seq<LogEntry>, prev: nat,
                                      es: seq<LogEntry>, skip: nat)
    requires Represents(log, full) && P.Traced(p, full) && P.Traced(p, l) && skip <= |es|
    requires prev + |es| <= |l| && es == l[prev..prev + |es|]
    requires P.Agree(full, l, log.baseIndex) && P.Agree(full, l, prev + skip)
    ensures var r := ScanFrom(log, prev + 1, es, skip);
            && P.Agree(full, l, prev + r.skip)
            && (r.skip < |es| ==> log.baseIndex <= prev + r.skip)
            && (r.conflict ==> prev + r.skip < |full| && full[prev + r.skip].term != l[prev + r.skip].term)
            && (!r.conflict && r.skip < |es| ==> prev + r.skip == |full|)
    decreases |es| - skip
  {
    hide Represents, P.Traced, TermAt;
    if skip < |es| {
      var i := prev + skip + 1;
      RepresentsGet(log, full, i);
      if i <= log.baseIndex {
        P.AgreeLess(full, l, log.baseIndex, i);
        ScanAgrees(p, log, full, l, prev, es, skip + 1);
      } else if TermAt(log, i) == Some(es[skip].term) {
        assert es[skip] == l[i - 1];
        P.LogMatching(p, full, l, i);
        ScanAgrees(p, log, full, l, prev, es, skip + 1);
      }
    }
  }

  lemma RenumberSame(l: seq<LogEntry>, f: nat, g: nat)
    requires Indexed(l) && f <= g <= |l|
    ensures Renumber(l[f..g], f + 1) == l[f..g]
  {
  }

  lemma CutKeepsBase(log: Log, cut: LogIndex)
    ensures CutFrom(log, cut).baseIndex == log.baseIndex && CutFrom(log, cut).baseTerm == log.baseTerm
  {
  }

  lemma RepresentsExtend(log: Log, l: seq<LogEntry>, f: nat, g: nat)
    requires f <= g <= |l| && Represents(log, l[..f]) && Indexed(l)
    ensures Represents(log.(entries := log.entries + l[f..g]), l[..g])
  {
    assert l[..g][log.baseIndex..] == l[..f][log.baseIndex..] + l[f..g];
    if 0 < log.baseIndex { assert l[..g][log.baseIndex - 1] == l[..f][log.baseIndex - 1]; }
  }

  /** The log after appending the first `i` entries the scan did not skip: the leader's log through them. */
  lemma AppendedRepresents(log: Log, full: seq<LogEntry>, l: seq<LogEntry>, prev: nat, es: seq<LogEntry>, skip: nat,
                           conflict: bool, i: nat)
    requires Represents(log, full) && Indexed(l) && skip < |es| && i <= |es| - skip
    requires prev + |es| <= |l| && es == l[prev..prev + |es|]
    requires P.Agree(full, l, prev + skip) && log.baseIndex <= prev + skip <= |full|
    requires if conflict then prev + skip < |full| else prev + skip == |full|
    ensures var kept := if conflict then CutFrom(log, prev + 1 + skip) else log;
            && LastIndex(kept) == prev + skip && kept.baseIndex == log.baseIndex && kept.baseTerm == log.baseTerm
            && Represents(kept.(entries := kept.entries + Renumber(es[skip..], prev + skip + 1)[..i]),
                          l[..prev + skip + i])
  {
    hide Represents, CutFrom, LastIndex, Indexed;
    var f := prev + skip;
    var kept := if conflict then CutFrom(log, f + 1) else log;
    if conflict { RepresentsCut(log, full, f + 1); CutKeepsBase(log, f + 1); } else { assert full[..f] == full; }
    RepresentsEnd(kept, full[..f]);
    assert es[skip..] == l[f..prev + |es|];
    RenumberSame(l, f, prev + |es|);
    assert l[f..prev + |es|][..i] == l[f..f + i];
    RepresentsExtend(kept, l, f, f + i);
  }

  /** A passed consistency check, also the one inside the snapshot, means agreement up to `prev`. */
  lemma ConsistentAgrees(p: P.Proto, n: NodeId, s: NodeState, m: Message)
    requires P.Inv(p) && NodeOk(p, n, s) && m.AppendEntries? && AppendOk(p, n, m) && m.term == s.term
    requires Consistent(s, m)
    ensures P.Agree(p.full[n], p.logs[m.term], m.prevLogIndex)
    ensures P.Agree(p.full[n], p.logs[m.term], s.commitIndex)
    ensures P.Agree(p.full[n], p.logs[m.term], s.log.baseIndex)
  {
    hide P.Inv, PeersOf, CommitPoint;
    var full, l := p.full[n], p.logs[m.term];
    CommitAgrees(p, n, s);
    P.AgreeLess(full, l, s.commitIndex, s.log.baseIndex);
    FullFacts(p, n);
    LeaderFacts(p, m.term);
    if 0 < m.prevLogIndex < s.log.baseIndex {
      P.AgreeLess(full, l, s.commitIndex, m.prevLogIndex);
    } else if 0 < m.prevLogIndex {
      RepresentsGet(s.log, full, m.prevLogIndex);
      P.LogMatching(p, full, l, m.prevLogIndex);
    }
  }

  lemma CommitAgrees(p: P.Proto, n: NodeId, s: NodeState)
    requires P.Inv(p) && NodeOk(p, n, s) && s.term in p.logs
    ensures P.Agree(p.full[n], p.logs[s.term], s.commitIndex)
  {
    hide PeersOf, Represents;
    CommitInLeaderLog(p, p.full[n], s.commitIndex, s.term);
  }

  /** What the scan of a consistent AppendEntries finds in a tied node. */
  lemma ScanOk(p: P.Proto, n: NodeId, s: NodeState, m: Message)
    requires P.Inv(p) && NodeOk(p, n, s) && m.AppendEntries? && AppendOk(p, n, m) && m.term == s.term
    requires Consistent(s, m)
    ensures var full, l := p.full[n], p.logs[m.term];
            var r := ScanFrom(s.log, m.prevLogIndex + 1, m.entries, 0);
            && P.Agree(full, l, m.prevLogIndex + r.skip)
            && (r.skip < |m.entries| ==>
                  s.commitIndex <= m.prevLogIndex + r.skip && s.log.baseIndex <= m.prevLogIndex + r.skip)
            && (r.conflict ==>
                  m.prevLogIndex + r.skip < |full| &&
                  full[m.prevLogIndex + r.skip].term != l[m.prevLogIndex + r.skip].term)
            && (!r.conflict && r.skip < |m.entries| ==> m.prevLogIndex + r.skip == |full|)
  {
    hide P.Inv, PeersOf, CommitKnown, CommitPoint, P.Traced, Represents;
    ConsistentAgrees(p, n, s, m);
    FullFacts(p, n);
    LeaderFacts(p, m.term);
    var full, l := p.full[n], p.logs[m.term];
    ScanAgrees(p, s.log, full, l, m.prevLogIndex, m.entries, 0);
    var r := ScanFrom(s.log, m.prevLogIndex + 1, m.entries, 0);
    AgreeEverywhere(full, l, s.commitIndex);
  }

  lemma AgreeEverywhere(a: seq<LogEntry>, b: seq<LogEntry>, i: nat)
    requires P.Agree(a, b, i)
    ensures forall k :: 0 <= k < i ==> a[k] == b[k]
  {
    forall k | 0 <= k < i ensures a[k] == b[k] { P.AgreeAt(a, b, i, k); }
  }

  /** Committed entries are never in conflict with the leader's, so nothing is ever refused. */
  lemma NeverRefused(p: P.Proto, n: NodeId, s: NodeState, m: Message)
    requires P.Inv(p) && NodeOk(p, n, s) && m.AppendEntries? && AppendOk(p, n, m) && m.term == s.term
    requires Consistent(s, m)
    ensures AppendAt(s.log, m.prevLogIndex + 1, m.entries, s.commitIndex) != Refused
  {
    hide P.Inv, NodeOk, AppendOk;
    ScanOk(p, n, s, m);
  }

  /** A follower replaces its log by its leader's first `g` entries; its commit stays within them. */
  lemma AcceptStep(p: P.Proto, n: NodeId, s: NodeState, f: nat, g: nat, log: Log)
    requires P.Inv(p) && NodeOk(p, n, s) && s.role == Follower && P.CanAccept(p, n, f, g) && s.commitIndex <= f
    requires Represents(log, p.logs[s.term][..g]) && log.baseIndex <= s.lastApplied
    ensures Follows(p, P.Accept(p, n, g), n, s.(log := log))
  {
    hide P.Inv, PeersOf, P.Moved, Represents, P.Traced;
    var p' := P.Accept(p, n, g);
    P.AcceptKeepsInv(p, n, f, g);
    InvShape(p);
    P.AcceptMoves(p, n, f, g);
    MovedExtends(p, p', n);
    var full, l := p.full[n], p.logs[s.term];
    CommitAgrees(p, n, s);
    assert l[..g][..s.commitIndex] == l[..s.commitIndex];
    CommitKnownStays(p, p', full, s.commitIndex, s.term, s.term);
    CommitKnownMoves(p', full, l[..g], s.commitIndex, s.term);
  }

  /** Acknowledging `i`, and committing what the leader says is committed, up to `i`. */
  lemma AckStep(p: P.Proto, n: NodeId, s: NodeState, i: nat, commit: nat)
    requires P.Inv(p) && NodeOk(p, n, s) && s.role == Follower && s.term in p.logs
    requires P.Agree(p.full[n], p.logs[s.term], i) && CommitPoint(p, commit, s.term)
    ensures Follows(p, P.AckTo(p, n, i), n, s.(commitIndex := Max(s.commitIndex, Min(commit, i))))
    ensures AckOk(P.AckTo(p, n, i), n, s.term, i)
  {
    hide P.Inv, PeersOf, P.Moved, Represents;
    var p' := P.AckTo(p, n, i);
    P.AckKeepsInv(p, n, i);
    InvShape(p);
    P.AckMoves(p, n, i);
    MovedExtends(p, p', n);
    var c := Max(s.commitIndex, Min(commit, i));
    if c != s.commitIndex {
      P.AgreeLess(p.full[n], p.logs[s.term], i, c);
      CommitPointLess(p, commit, c, s.term);
      CommitFromLeaderInv(p, p.full[n], c, s.term);
    }
    CommitKnownStays(p, p', p.full[n], c, s.term, s.term);
  }

  lemma CommitPointLess(p: P.Proto, c: nat, d: nat, t: Term)
    requires CommitPoint(p, c, t) && d <= c
    ensures CommitPoint(p, d, t)
  {
    if d != 0 {
      var u: Term, i: nat :| P.Committed(p, u, i) && u <= t && c <= i;
    }
  }

  lemma CommitFromLeaderInv(p: P.Proto, full: seq<LogEntry>, c: nat, t: Term)
    requires P.Inv(p) && CommitPoint(p, c, t) && t in p.logs && P.Agree(full, p.logs[t], c)
    ensures CommitKnown(p, full, c, t)
  {
    CommitFromLeader(p, full, c, t);
  }

  /** Taking the first `i` entries of a batch that the scan did not skip: the leader's log through them. */
  lemma PartialAccept(p: P.Proto, n: NodeId, s: NodeState, m: Message, i: nat) returns (p': P.Proto, log: Log)
    requires P.Inv(p) && NodeOk(p, n, s) && s.role == Follower && m.AppendEntries? && AppendOk(p, n, m) &&
             m.term == s.term
    requires Consistent(s, m)
    requires var r := ScanFrom(s.log, m.prevLogIndex + 1, m.entries, 0);
             i <= |m.entries| - r.skip && r.skip < |m.entries|
    ensures var r := ScanFrom(s.log, m.prevLogIndex + 1, m.entries, 0);
            var kept := if r.conflict then CutFrom(s.log, m.prevLogIndex + 1 + r.skip) else s.log;
            log == kept.(entries := kept.entries + Renumber(m.entries[r.skip..], LastIndex(kept) + 1)[..i])
    ensures var r := ScanFrom(s.log, m.prevLogIndex + 1, m.entries, 0);
            p'.logs == p.logs && n in p'.full && m.prevLogIndex + r.skip + i <= |p.logs[s.term]|
            && p'.full[n] == p.logs[s.term][..m.prevLogIndex + r.skip + i]
    ensures Follows(p, p', n, s.(log := log)) && log.baseIndex == s.log.baseIndex && log.baseTerm == s.log.baseTerm
  {
    hide P.Inv, P.Moved, NodeOk, AppendOk, Represents, CutFrom, LastIndex, Consistent, ScanFrom, Renumber, Indexed;
    FollowerFacts(p, n, s, m);
    var full, l := p.full[n], p.logs[m.term];
    var r := ScanFrom(s.log, m.prevLogIndex + 1, m.entries, 0);
    ScanOk(p, n, s, m);
    AppendedRepresents(s.log, full, l, m.prevLogIndex, m.entries, r.skip, r.conflict, i);
    var f := m.prevLogIndex + r.skip;
    var kept := if r.conflict then CutFrom(s.log, m.prevLogIndex + 1 + r.skip) else s.log;
    log := kept.(entries := kept.entries + Renumber(m.entries[r.skip..], f + 1)[..i]);
    AcceptStep(p, n, s, f, f + i, log);
    p' := P.Accept(p, n, f + i);
  }

  /** What a follower and a message of its term have to do with the protocol. */
  lemma FollowerFacts(p: P.Proto, n: NodeId, s: NodeState, m: Message)
    requires P.Inv(p) && NodeOk(p, n, s) && m.AppendEntries? && AppendOk(p, n, m) && m.term == s.term
    ensures n in p.full && n in p.term && n in p.members && p.term[n] == s.term && s.log.baseIndex <= s.lastApplied
    ensures Represents(s.log, p.full[n]) && s.term in p.logs && s.term in p.leaders && p.leaders[s.term] != n &&
            Indexed(p.logs[s.term])
    ensures m.prevLogIndex + |m.entries| <= |p.logs[s.term]|
    ensures m.entries == p.logs[s.term][m.prevLogIndex..m.prevLogIndex + |m.entries|]
  {
    hide P.Inv, PeersOf, CommitKnown, CommitPoint, P.Traced, Represents;
    LeaderFacts(p, m.term);
    TracedIndexed(p, p.logs[m.term]);
  }

  function Appending(s: NodeState, m: Message): AppendOutcome
    requires m.AppendEntries?
  {
    if m.entries == [] then Appended(s.log, None) else AppendAt(s.log, m.prevLogIndex + 1, m.entries, s.commitIndex)
  }

  lemma AppendingOk(p: P.Proto, n: NodeId, s: NodeState, m: Message) returns (p': P.Proto)
    requires P.Inv(p) && NodeOk(p, n, s) && s.role == Follower && m.AppendEntries? && AppendOk(p, n, m) &&
             m.term == s.term
    requires Consistent(s, m)
    ensures Appending(s, m).Appended? && Follows(p, p', n, s.(log := Appending(s, m).log))
    ensures s.term in p'.logs && P.Agree(p'.full[n], p'.logs[s.term], m.prevLogIndex + |m.entries|)
  {
    hide P.Inv, P.Moved, NodeOk, AppendOk, CutFrom, LastIndex, Consistent, ScanFrom, Renumber, Represents, Indexed;
    FollowerFacts(p, n, s, m);
    var r := ScanFrom(s.log, m.prevLogIndex + 1, m.entries, 0);
    ScanOk(p, n, s, m);
    p' := p;
    P.NothingMoves(p, n);
    if r.skip < |m.entries| {
      var log;
      p', log := PartialAccept(p, n, s, m, |m.entries| - r.skip);
      AppendingIs(s, m, log);
      PrefixAgrees(p.logs[s.term], m.prevLogIndex + |m.entries|);
    } else {
      assert s.(log := s.log) == s;
    }
  }

  lemma AppendingIs(s: NodeState, m: Message, log: Log)
    requires m.AppendEntries? && AppendAt(s.log, m.prevLogIndex + 1, m.entries, s.commitIndex).Appended?
    requires var r := ScanFrom(s.log, m.prevLogIndex + 1, m.entries, 0);
             var kept := if r.conflict then CutFrom(s.log, m.prevLogIndex + 1 + r.skip) else s.log;
             r.skip < |m.entries|
             && var more := Renumber(m.entries[r.skip..], LastIndex(kept) + 1)[..|m.entries| - r.skip];
                log == kept.(entries := kept.entries + more)
    ensures Appending(s, m) == AppendAt(s.log, m.prevLogIndex + 1, m.entries, s.commitIndex) &&
            Appending(s, m).log == log
  {
    hide CutFrom, LastIndex, ScanFrom;
  }

  lemma PrefixAgrees(l: seq<LogEntry>, g: nat)
    requires g <= |l|
    ensures P.Agree(l[..g], l, g)
  {
  }

  lemma AcceptEntriesOk(p: P.Proto, n: NodeId, s: NodeState, m: Message) returns (p': P.Proto)
    requires P.Inv(p) && NodeOk(p, n, s) && s.role == Follower && m.AppendEntries? && AppendOk(p, n, m) &&
             m.term == s.term
    requires Consistent(s, m)
    ensures AcceptEntries(s, m).Some? && Follows(p, p', n, AcceptEntries(s, m).value)
    ensures AckOk(p', n, s.term, m.prevLogIndex + |m.entries|)
  {
    hide P.Inv, PeersOf, P.Moved, Represents, CommitKnown, CommitPoint, Consistent, P.Agree, AppendAt, EntriesFrom;
    var g := m.prevLogIndex + |m.entries|;
    var p1 := AppendingOk(p, n, s, m);
    var s1 := s.(log := Appending(s, m).log);
    assert CommitPoint(p1, m.leaderCommit, s.term) by {
      MovedExtends(p, p1, n);
      CommitPointStays(p, p1, m.leaderCommit, s.term);
    }
    AckStep(p1, n, s1, g, m.leaderCommit);
    p' := P.AckTo(p1, n, g);
    FollowsTrans(p, p1, p', n, s1, s1.(commitIndex := Max(s1.commitIndex, Min(m.leaderCommit, g))));
  }

  lemma TracedIndexed(p: P.Proto, l: seq<LogEntry>)
    requires P.Traced(p, l)
    ensures Indexed(l)
  {
  }

  lemma HandleAppendOk(p: P.Proto, n: NodeId, s: NodeState, m: Message) returns (p': P.Proto)
    requires P.Inv(p) && NodeOk(p, n, s) && m.AppendEntries? && AppendOk(p, n, m) && m.term <= s.term
    ensures Follows(p, p', n, HandleAppendEntries(s, m).state)
    ensures ActionsOk(p', HandleAppendEntries(s, m).state, HandleAppendEntries(s, m).actions)
  {
    hide P.Inv, PeersOf, P.Moved, Represents, CommitKnown, CommitPoint, AcceptEntries, LastIndex, LeaderOk, CandidateOk,
         Consistent;
    p' := p;
    P.NothingMoves(p, n);
    if m.term == s.term {
      var s1 := Follow(s, m.term, m.leader);
      if Consistent(s1, m) {
        p' := AcceptEntriesOk(p, n, s1, m);
        AcceptedKeeps(s1, m);
      } else {
        InconsistentRejected(s1, m);
      }
    }
  }

  lemma AcceptedKeeps(s: NodeState, m: Message)
    requires m.AppendEntries? && AcceptEntries(s, m).Some?
    ensures AcceptEntries(s, m).value.term == s.term && AcceptEntries(s, m).value.me == s.me
  {
  }

  lemma InconsistentRejected(s: NodeState, m: Message)
    requires m.AppendEntries? && !Consistent(s, m)
    ensures AcceptEntries(s, m) == None
  {
  }

  // ---------- received snapshots ----------

  /** How far two logs agree: to the end of the first, or up to two entries of different terms. */
  lemma {:induction false} Divergence(p: P.Proto, a: seq<LogEntry>, b: seq<LogEntry>, i: nat) returns (f: nat)
    requires P.Traced(p, a) && P.Traced(p, b) && 0 < i <= |b|
    requires i <= |a| ==> a[i - 1].term != b[i - 1].term
    ensures f <= i && P.Agree(a, b, f)
    ensures f == |a| || (f < |a| && f < |b| && a[f].term != b[f].term)
  {
    var k := if i - 1 <= |a| then i - 1 else |a|;
    if k == 0 || a[k - 1].term == b[k - 1].term {
      if 0 < k { P.LogMatching(p, a, b, k); }
      f := k;
    } else {
      f := Divergence(p, a, b, k);
    }
  }

  /** The snapshot's last entry conflicts or is missing: the log becomes the leader's through it. */
  lemma ReplaceBySnapshot(p: P.Proto, n: NodeId, s: NodeState, f: nat, li: nat)
    requires P.Inv(p) && NodeOk(p, n, s) && s.role == Follower && P.CanAccept(p, n, f, li) && s.commitIndex <= f
    requires 0 < li && CommitPoint(p, li, s.term)
    ensures Follows(p, P.Accept(p, n, li), n,
                    s.(log := Log([], li, p.logs[s.term][li - 1].term), commitIndex := li, lastApplied := li))
  {
    hide P.Inv, PeersOf, P.Moved, P.Traced;
    var p' := P.Accept(p, n, li);
    P.AcceptKeepsInv(p, n, f, li);
    InvShape(p);
    P.AcceptMoves(p, n, f, li);
    MovedExtends(p, p', n);
    var l := p.logs[s.term];
    assert Represents(Log([], li, l[li - 1].term), l[..li]) by { LeaderFacts(p, s.term); TracedIndexed(p, l); }
    assert CommitKnown(p', l[..li], li, s.term) by {
      CommitPointStays(p, p', li, s.term);
      PrefixAgrees(l, li);
      CommitFromLeaderInv(p', l[..li], li, s.term);
    }
    hide CommitKnown, CommitPoint, Represents, LeaderOk, CandidateOk;
  }

  /** The snapshot's last entry matches: the prefix is folded away, nothing else changes. */
  lemma KeepSuffix(p: P.Proto, n: NodeId, s: NodeState, li: nat, lt: Term)
    requires P.Inv(p) && NodeOk(p, n, s) && s.role == Follower && s.term in p.logs
    requires s.log.baseIndex < li <= |p.logs[s.term]| && lt == p.logs[s.term][li - 1].term && CommitPoint(p, li, s.term)
    requires KeepsSuffix(s.log, li, lt)
    ensures NodeOk(p, n, s.(log := CompactTo(s.log, li, lt), commitIndex := Max(s.commitIndex, li),
                            lastApplied := Max(s.lastApplied, li)))
  {
    hide P.Inv, PeersOf, Represents, P.Traced, CompactTo, TermAt;
    var full, l := p.full[n], p.logs[s.term];
    RepresentsGet(s.log, full, li);
    FullFacts(p, n);
    LogTraced(p, s.term);
    P.LogMatching(p, full, l, li);
    RepresentsCompact(s.log, full, li, lt);
    CompactBase(s.log, li, lt);
    CommitFromLeaderInv(p, full, li, s.term);
  }

  lemma CompactBase(l: Log, cut: LogIndex, t: Term)
    requires l.baseIndex < cut
    ensures CompactTo(l, cut, t).baseIndex == cut && CompactTo(l, cut, t).baseTerm == t
  {
  }

  lemma LogTraced(p: P.Proto, t: Term)
    requires P.Inv(p) && t in p.logs
    ensures P.Traced(p, p.logs[t])
  {
  }

  lemma InstallDoneOk(p: P.Proto, n: NodeId, s: NodeState, m: Message) returns (p': P.Proto)
    requires P.Inv(p) && NodeOk(p, n, s) && s.role == Follower && m.InstallSnapshot? && InstallOk(p, n, m) &&
             m.term == s.term
    ensures Follows(p, p', n, InstallDone(s, m))
    ensures s.term in p'.logs
  {
    hide P.Inv, PeersOf, P.Moved, CommitKnown, CommitPoint, CompactTo, P.Traced, Represents, TermAt;
    p' := p;
    P.NothingMoves(p, n);
    var full, l := p.full[n], p.logs[m.term];
    if s.log.baseIndex < m.lastIndex {
      if KeepsSuffix(s.log, m.lastIndex, m.lastTerm) {
        KeepSuffix(p, n, s, m.lastIndex, m.lastTerm);
      } else {
        RepresentsGet(s.log, full, m.lastIndex);
        FullFacts(p, n);
        LeaderFacts(p, m.term);
        var f := Divergence(p, full, l, m.lastIndex);
        assert s.commitIndex <= f by { CommitAgrees(p, n, s); AgreeEverywhere(full, l, s.commitIndex); }
        ReplaceBySnapshot(p, n, s, f, m.lastIndex);
        p' := P.Accept(p, n, m.lastIndex);
      }
    }
  }

  lemma HandleInstallOk(p: P.Proto, n: NodeId, s: NodeState, m: Message, progress: nat) returns (p': P.Proto)
    requires P.Inv(p) && NodeOk(p, n, s) && m.InstallSnapshot? && InstallOk(p, n, m) && m.term <= s.term
    ensures Follows(p, p', n, HandleInstallSnapshot(s, m, progress).state)
    ensures ActionsOk(p', HandleInstallSnapshot(s, m, progress).state, HandleInstallSnapshot(s, m, progress).actions)
  {
    hide P.Inv, PeersOf, P.Moved, Represents, CommitKnown, InstallDone, LeaderOk, CandidateOk;
    p' := p;
    P.NothingMoves(p, n);
    if m.term == s.term && m.done {
      var s1 := Follow(s, m.term, m.leader);
      var s2 := InstallDone(s1, m);
      var p1 := InstallDoneOk(p, n, s1, m);
      InstallKeeps(s1, m);
      var i := Max(m.lastIndex, s2.log.baseIndex);
      assert P.Agree(p1.full[n], p1.logs[s.term], i) by {
        CommitAgrees(p1, n, s2);
        P.AgreeLess(p1.full[n], p1.logs[s.term], s2.commitIndex, i);
      }
      AckStep(p1, n, s2, i, 0);
      p' := P.AckTo(p1, n, i);
      FollowsTrans(p, p1, p', n, s2, s2.(commitIndex := Max(s2.commitIndex, 0)));
    }
  }

  lemma InstallKeeps(s: NodeState, m: Message)
    requires m.InstallSnapshot? && s.log.baseIndex <= s.commitIndex
    ensures var s' := InstallDone(s, m);
            s'.term == s.term && s'.me == s.me && s'.role == s.role
            && m.lastIndex <= s'.commitIndex && s'.log.baseIndex <= s'.commitIndex
  {
  }
}
