/**
 A partition kept by a Raft group, over whole runs: leaders propose at the next assignable offset, each node
 applies what is committed in its own time, snapshots bring another node's records, and after a crash a
 node goes back to an earlier state of its partition and applies again.
 */
module ReplicaRuns {
  import opened Basics
  import opened RaftTypes
  import opened RaftLog
  import opened RaftNode
  import opened RaftCluster
  import opened RaftSim
  import opened RaftSteps
  import opened RaftFollower
  import opened RaftDurable
  import opened RaftRestart
  import opened RaftTorn
  import opened RaftNext
  import opened RaftOrigin
  import opened ReplicaLog
  import P = RaftProtocol
  import R = Replica

  /** The apply loop of a node: the last entry it has applied, and its partition. */
  datatype Applier = Applier(at: LogIndex, rep: R.Replica)

  datatype World = World(cluster: Cluster, appliers: map<NodeId, Applier>)

  // ---------- logs that are committed ----------

  ghost predicate CommittedAs(p: P.Proto, l: seq<LogEntry>, u: Term, c: nat) {
    P.Committed(p, u, c) && u in p.logs && |l| <= c <= |p.logs[u]| && l == p.logs[u][..|l|]
  }

  /** The entries are the first of a log that was committed at least that far. */
  ghost predicate CommittedLog(p: P.Proto, l: seq<LogEntry>) {
    l == [] || exists u: Term, c: nat :: CommittedAs(p, l, u, c)
  }

  lemma CommittedLogStays(p: P.Proto, p': P.Proto, l: seq<LogEntry>)
    requires P.Extends(p, p') && CommittedLog(p, l)
    ensures CommittedLog(p', l)
  {
    hide P.Committed;
    if l != [] {
      var u: Term, c: nat :| CommittedAs(p, l, u, c);
      P.CommittedStays(p, p', u, c);
      assert CommittedAs(p', l, u, c);
    }
  }

  lemma Completes(p: P.Proto)
    requires P.Inv(p)
    ensures P.LeaderCompleteness(p)
  {
  }

  /** Of two committed logs the shorter is the first part of the longer. */
  lemma CommittedOnce(p: P.Proto, l: seq<LogEntry>, m: seq<LogEntry>)
    requires P.Inv(p) && CommittedLog(p, l) && CommittedLog(p, m) && |l| <= |m|
    ensures l <= m
  {
    hide P.Inv, P.Committed, P.LeaderCompleteness;
    if l != [] {
      var u: Term, c: nat :| CommittedAs(p, l, u, c);
      var v: Term, d: nat :| CommittedAs(p, m, v, d);
      Completes(p);
      P.CommittedComparable(p, u, c, v, d, |l|);
      assert m[..|l|] == p.logs[v][..|l|];
    }
  }

  lemma CommittedIn(p: P.Proto, u: Term, i: nat)
    requires P.Committed(p, u, i)
    ensures u in p.logs && i <= |p.logs[u]|
  {
  }

  lemma NodeCommitted(p: P.Proto, n: NodeId, s: NodeState, k: nat)
    requires NodeOk(p, n, s) && k <= s.commitIndex
    ensures k <= |p.full[n]| && CommittedLog(p, p.full[n][..k])
  {
    hide PeersOf, Represents, LeaderOk, CandidateOk, VoteOk, P.Committed;
    if k > 0 {
      var u: Term, i: nat :| CommitBy(p, p.full[n], s.commitIndex, s.term, u, i);
      CommittedIn(p, u, i);
      P.AgreeLess(p.full[n], p.logs[u], s.commitIndex, k);
      assert CommittedAs(p, p.full[n][..k], u, i);
    }
  }

  /** An entry that was committed before stands in its leader's log before. */
  lemma CommittedOld(p: P.Proto, p': P.Proto, c: nat, t: Term, l: seq<LogEntry>, k: nat)
    requires P.Inv(p) && P.Inv(p') && P.Extends(p, p') && CommitPoint(p, c, t) && k < c
    requires CommittedLog(p', l) && k < |l|
    ensures Old(p, l[k])
  {
    hide P.Inv, P.Committed, Old, P.Extends, CommittedLog, P.Traced;
    var u: Term, i: nat :| P.Committed(p, u, i) && u <= t && c <= i;
    CommittedIn(p, u, i);
    var m := p.logs[u][..k + 1];
    assert CommittedLog(p, m) by { PrefixCommitted(p, u, i, k + 1); }
    CommittedLogStays(p, p', m);
    CommittedOnce(p', m, l);
    assert l[k] == m[k] == p.logs[u][k];
    LogTraced(p, u);
    TracedOld(p, p.logs[u], k);
  }

  lemma PrefixCommitted(p: P.Proto, u: Term, i: nat, k: nat)
    requires P.Committed(p, u, i) && k <= i
    ensures u in p.logs && i <= |p.logs[u]| && CommittedLog(p, p.logs[u][..k])
  {
    hide P.Committed;
    CommittedIn(p, u, i);
    assert CommittedAs(p, p.logs[u][..k], u, i);
  }

  // ---------- offsets rise in every log ----------

  /** Every entry a leader wrote in its term carries offsets past all entries before it. */
  ghost predicate AllRise(p: P.Proto) {
    forall t, k :: t in p.logs && 0 <= k < |p.logs[t]| && p.logs[t][k].term == t ==> RiseAt(p.logs[t], k)
  }

  lemma RiseSame(l: seq<LogEntry>, m: seq<LogEntry>, k: nat)
    requires k < |l| && k < |m| && l[..k + 1] == m[..k + 1] && RiseAt(m, k)
    ensures RiseAt(l, k)
  {
    hide CmdOf, EndsBy;
    forall j | 0 <= j <= k ensures l[j] == m[j] { assert l[..k + 1][j] == m[..k + 1][j]; }
  }

  lemma TracedRises(p: P.Proto, l: seq<LogEntry>)
    requires AllRise(p) && P.Traced(p, l)
    ensures Rises(l)
  {
    hide RiseAt;
    forall k | 0 <= k < |l| ensures RiseAt(l, k) {
      var u := l[k].term;
      assert P.Known(p, k + 1, u) && P.Agree(l, p.logs[u], k + 1);
      assert RiseAt(p.logs[u], k);
      RiseSame(l, p.logs[u], k);
    }
  }

  lemma CommittedRises(p: P.Proto, l: seq<LogEntry>)
    requires P.Inv(p) && AllRise(p) && CommittedLog(p, l)
    ensures Rises(l)
  {
    hide P.Inv, AllRise, P.Traced, P.Committed, Rises;
    if l != [] {
      var u: Term, c: nat :| CommittedAs(p, l, u, c);
      LogTraced(p, u);
      TracedRises(p, p.logs[u]);
      RisesPrefix(l, p.logs[u]);
    } else {
      NothingRises();
    }
  }

  lemma NothingRises()
    ensures Rises([])
  {
  }

  lemma FullRises(p: P.Proto, n: NodeId, s: NodeState)
    requires P.Inv(p) && AllRise(p) && NodeOk(p, n, s)
    ensures n in p.full && Rises(p.full[n])
  {
    hide AllRise, P.Traced, Rises;
    FullFacts(p, n);
    TracedRises(p, p.full[n]);
  }

  // ---------- what an applier holds ----------

  ghost predicate HoldsBy(p: P.Proto, a: Applier, l: seq<LogEntry>) {
    CommittedLog(p, l) && a.at <= |l| && a.rep == State(l)
  }

  /** The partition holds exactly the records of a committed log, up to the last applied entry or further. */
  ghost predicate Holds(p: P.Proto, a: Applier) {
    exists l: seq<LogEntry> :: HoldsBy(p, a, l)
  }

  lemma HoldsStays(p: P.Proto, p': P.Proto, a: Applier)
    requires P.Extends(p, p') && Holds(p, a)
    ensures Holds(p', a)
  {
    hide CommittedLog, State, P.Extends;
    var l: seq<LogEntry> :| HoldsBy(p, a, l);
    CommittedLogStays(p, p', l);
    assert HoldsBy(p', a, l);
  }

  lemma HoldsLess(p: P.Proto, a: Applier, at: nat)
    requires Holds(p, a) && at <= a.at
    ensures Holds(p, Applier(at, a.rep))
  {
    hide CommittedLog, State;
    var l: seq<LogEntry> :| HoldsBy(p, a, l);
    assert HoldsBy(p, Applier(at, a.rep), l);
  }

  lemma HoldsNothing(p: P.Proto)
    ensures Holds(p, Applier(0, R.Empty))
  {
    StateNone();
    assert HoldsBy(p, Applier(0, R.Empty), []);
  }

  /** The partition with what another one holds, if that is more. */
  function Merged(rep: R.Replica, other: R.Replica): R.Replica {
    if rep.next < other.next then other else rep
  }

  lemma HoldsMerged(p: P.Proto, a: Applier, b: Applier)
    requires P.Inv(p) && AllRise(p) && Holds(p, a) && Holds(p, b)
    ensures Holds(p, Applier(Max(a.at, b.at), Merged(a.rep, b.rep)))
  {
    hide P.Inv, AllRise, CommittedLog, State, Rises;
    var l: seq<LogEntry> :| HoldsBy(p, a, l);
    var m: seq<LogEntry> :| HoldsBy(p, b, m);
    var c := Applier(Max(a.at, b.at), Merged(a.rep, b.rep));
    CommittedRises(p, l);
    CommittedRises(p, m);
    if |l| <= |m| {
      CommittedOnce(p, l, m);
      StateMore(l, m);
      assert HoldsBy(p, c, m);
    } else {
      CommittedOnce(p, m, l);
      StateMore(m, l);
      assert HoldsBy(p, c, l);
    }
  }

  function Advanced(rep: R.Replica, e: LogEntry): R.Replica {
    var c := CmdOf(e.payload); if c.Some? then R.Apply(rep, c.value) else rep
  }

  /** Applying the next committed entry. */
  lemma HoldsNext(p: P.Proto, a: Applier, h: seq<LogEntry>)
    requires P.Inv(p) && AllRise(p) && Holds(p, a) && CommittedLog(p, h) && |h| == a.at + 1
    ensures Holds(p, Applier(a.at + 1, Advanced(a.rep, h[a.at])))
  {
    hide P.Inv, AllRise, CommittedLog, State, Rises, CmdOf, R.Apply;
    var l: seq<LogEntry> :| HoldsBy(p, a, l);
    var b, e := Applier(a.at + 1, Advanced(a.rep, h[a.at])), h[a.at];
    if |l| == a.at {
      CommittedOnce(p, l, h);
      assert h == l + [e];
      StatePush(l, e);
      assert HoldsBy(p, b, h);
    } else {
      CommittedOnce(p, h, l);
      CommittedRises(p, l);
      assert l[a.at] == e;
      if CmdOf(e.payload).Some? { AppliesAgain(l, a.at); }
      assert HoldsBy(p, b, l);
    }
  }

  /** Applying an entry again that was applied before. */
  lemma HoldsAgain(p: P.Proto, a: Applier, h: seq<LogEntry>)
    requires P.Inv(p) && AllRise(p) && Holds(p, a) && CommittedLog(p, h) && 0 < |h| <= a.at
    ensures Advanced(a.rep, h[|h| - 1]) == a.rep
  {
    hide P.Inv, AllRise, CommittedLog, State, Rises, CmdOf, R.Apply;
    var l: seq<LogEntry> :| HoldsBy(p, a, l);
    CommittedOnce(p, h, l);
    CommittedRises(p, l);
    assert l[|h| - 1] == h[|h| - 1];
    if CmdOf(h[|h| - 1].payload).Some? { AppliesAgain(l, |h| - 1); }
  }

  /** What the partition covers ends at or before its end. */
  lemma HoldsEnds(p: P.Proto, a: Applier, h: seq<LogEntry>, j: nat)
    requires P.Inv(p) && AllRise(p) && Holds(p, a) && CommittedLog(p, h) && j < |h| <= a.at
    ensures EndsBy(h[j], a.rep.next)
  {
    hide P.Inv, AllRise, CommittedLog, State, Rises, CmdOf, EndsBy;
    var l: seq<LogEntry> :| HoldsBy(p, a, l);
    CommittedOnce(p, h, l);
    CommittedRises(p, l);
    StateIs(l);
    EndsLast(l, j);
    assert l[j] == h[j];
  }

  // ---------- a step of the protocol keeps offsets rising ----------

  /** The entry is what the applier's node may propose next. */
  ghost predicate Proposed(l: Log, next: nat, payload: seq<byte>) {
    var c := CmdOf(payload); c.Some? && c.value.records != [] && c.value.base == R.Assignable(Cmds(l.entries), next)
  }

  lemma LogStays(p: P.Proto, p': P.Proto, u: Term)
    requires P.Extends(p, p') && u in p.logs
    ensures u in p'.logs && p.logs[u] <= p'.logs[u]
  {
  }

  /** A proposal at the next assignable offset lies past everything in its leader's log. */
  lemma AddedRises(p: P.Proto, p': P.Proto, n: NodeId, s: NodeState, a: Applier, ev: Event, k: nat)
    requires P.Inv(p) && AllRise(p) && NodeOk(p, n, s) && Holds(p, a) && s.log.baseIndex <= a.at
    requires P.Extends(p, p') && s.term in p'.logs && k < |p'.logs[s.term]| && p'.logs[s.term][k].index == k + 1
    requires Added(s, ev, p'.logs[s.term][k]) && Proposed(s.log, a.rep.next, ev.payload)
    ensures RiseAt(p'.logs[s.term], k)
  {
    hide P.Inv, AllRise, PeersOf, CommitKnown, CandidateOk, VoteOk, Holds, Rises, CmdOf, EndsBy, R.Assignable,
         LastIndex;
    var full, base := p.full[n], s.log.baseIndex;
    RepresentsEnd(s.log, full);
    LeaderFacts(p, s.term);
    LogStays(p, p', s.term);
    FullRises(p, n, s);
    NodeCommitted(p, n, s, base);
    var c := CmdOf(ev.payload).value;
    forall j | 0 <= j < k ensures EndsBy(p'.logs[s.term][j], c.base) {
      if j < base { HoldsEnds(p, a, full[..base], j); }
      AssignedPast(full, base, a.rep.next, c.base, j);
    }
  }

  /** A new entry of a leader's log carries offsets past those before it. */
  lemma NewRises(p: P.Proto, p': P.Proto, n: NodeId, s: NodeState, s': NodeState, a: Applier, ev: Event, t: Term,
                 k: nat)
    requires P.Inv(p) && P.Inv(p') && P.Moved(p, p', n) && AllRise(p)
    requires NodeOk(p, n, s) && NodeOk(p', n, s') && Holds(p, a) && s.log.baseIndex <= a.at
    requires s.log.baseIndex <= s'.log.baseIndex && CommitPoint(p, s'.log.baseIndex, t)
    requires forall e :: e in s'.log.entries && s.log.baseIndex < e.index ==> Origin(p, s, ev, e)
    requires ev.Submit? ==> Proposed(s.log, a.rep.next, ev.payload)
    requires s'.term in p'.leaders && p'.leaders[s'.term] == n && s'.term in p'.logs
    requires k < |p'.logs[s'.term]| && p'.logs[s'.term][k].term == s'.term
    requires s'.term in p.logs ==> |p.logs[s'.term]| <= k
    ensures RiseAt(p'.logs[s'.term], k)
  {
    hide P.Inv, AllRise, PeersOf, CommitKnown, LeaderOk, CandidateOk, VoteOk, Holds, RiseAt, Proposed, CommitPoint,
         Added;
    LeaderFacts(p', s'.term);
    var full, b := p'.full[n], s'.log.baseIndex;
    var e := full[k];
    assert P.Extends(p, p');
    if k < b {
      NodeCommitted(p', n, s', b);
      CommittedOld(p, p', b, t, full[..b], k);
    } else {
      assert s'.log.entries[k - b] == e;
      assert Origin(p, s, ev, e);
      if Added(s, ev, e) {
        AddedTerm(s, ev, e);
        AddedRises(p, p', n, s, a, ev, k);
      } else if e.payload == [] {
        NoDataRises(full, k);
      }
    }
  }

  lemma AddedTerm(s: NodeState, ev: Event, e: LogEntry)
    requires Added(s, ev, e)
    ensures e.term == s.term && ev.Submit? && e.payload == ev.payload
  {
  }

  lemma NoDataRises(l: seq<LogEntry>, k: nat)
    requires k < |l| && l[k].payload == []
    ensures RiseAt(l, k)
  {
    hide EndsBy;
    NoData();
  }

  lemma RiseStep(p: P.Proto, p': P.Proto, n: NodeId, s: NodeState, s': NodeState, a: Applier, ev: Event, t: Term)
    requires P.Inv(p) && P.Inv(p') && P.Moved(p, p', n) && AllRise(p)
    requires NodeOk(p, n, s) && NodeOk(p', n, s') && Holds(p, a) && s.log.baseIndex <= a.at
    requires s.log.baseIndex <= s'.log.baseIndex && CommitPoint(p, s'.log.baseIndex, t)
    requires forall e :: e in s'.log.entries && s.log.baseIndex < e.index ==> Origin(p, s, ev, e)
    requires ev.Submit? ==> Proposed(s.log, a.rep.next, ev.payload)
    ensures AllRise(p')
  {
    hide P.Inv, NodeOk, Holds, Origin, Proposed, CommitPoint, RiseAt, P.OnlyMoved;
    forall u, k | u in p'.logs && 0 <= k < |p'.logs[u]| && p'.logs[u][k].term == u ensures RiseAt(p'.logs[u], k) {
      if u in p.logs && k < |p.logs[u]| {
        assert p.logs[u] <= p'.logs[u];
        assert p'.logs[u][..k + 1] == p.logs[u][..k + 1] && p'.logs[u][k] == p.logs[u][k];
        RiseSame(p'.logs[u], p.logs[u], k);
      } else {
        assert u == p'.term[n] && u in p'.leaders && p'.leaders[u] == n;
        assert s'.term == u by { NodeTerm(p', n, s'); }
        NewRises(p, p', n, s, s', a, ev, t, k);
      }
    }
  }

  // ---------- steps ----------

  /** What the partition asks of Raft: proposals at the next assignable offset, snapshots of what is applied. */
  ghost predicate Asked(w: World, n: NodeId, ev: Event)
    requires n in w.cluster.nodes && n in w.appliers
  {
    && (ev.Submit? ==> Proposed(w.cluster.nodes[n].raft.log, w.appliers[n].rep.next, ev.payload))
    && (ev.SnapshotRequest? ==> ev.through.Some? && ev.through.value <= w.appliers[n].at)
  }

  function BaseOf(c: Cluster, n: NodeId): LogIndex
    requires n in c.nodes
  {
    c.nodes[n].raft.log.baseIndex
  }

  /** The appliers after an event: a snapshot that is installed brings the records `from` holds. */
  ghost predicate Brings(w: World, w': World, n: NodeId, ev: Event, from: Applier)
    requires n in w.cluster.nodes && n in w'.cluster.nodes && n in w.appliers
  {
    var a, base := w.appliers[n], BaseOf(w'.cluster, n);
    if ev.Receive? && BaseOf(w.cluster, n) < base
    then base <= from.at && w'.appliers == w.appliers[n := Applier(Max(a.at, base), Merged(a.rep, from.rep))]
    else w'.appliers == w.appliers
  }

  ghost predicate EventStep(w: World, w': World, n: NodeId, ev: Event, env: Env, from: Applier) {
    && Enabled(w.cluster, n, ev) && n in w.appliers && Asked(w, n, ev)
    && w'.cluster == AfterEvent(w.cluster, n, ev, env) && Brings(w, w', n, ev, from)
  }

  /** A node restarts with a partition that holds what its snapshot covers, and applies from there again. */
  ghost predicate Reopens(w: World, w': World, n: NodeId, from: Applier)
    requires n in w'.cluster.nodes
  {
    var base := BaseOf(w'.cluster, n);
    base <= from.at && w'.appliers == w.appliers[n := Applier(base, from.rep)]
  }

  ghost predicate Crashed(w: World, w': World, n: NodeId, from: Applier) {
    CrashStep(w.cluster, w'.cluster, n) && n in w'.cluster.nodes && Reopens(w, w', n, from)
  }

  ghost predicate Broken(w: World, w': World, n: NodeId, ev: Event, env: Env, from: Applier) {
    && n in w.cluster.nodes && n in w.appliers && Asked(w, n, ev)
    && TornStep(w.cluster, w'.cluster, n, ev, env) && n in w'.cluster.nodes && Reopens(w, w', n, from)
  }

  /** The apply loop takes the next entry. */
  ghost predicate Applies(w: World, w': World, n: NodeId) {
    && n in w.cluster.nodes && n in w.appliers
    && var s, a := w.cluster.nodes[n].raft, w.appliers[n];
       var e := Get(s.log, a.at + 1);
       && a.at < s.lastApplied && e.Some?
       && w' == w.(appliers := w.appliers[n := Applier(a.at + 1, Advanced(a.rep, e.value))])
  }

  /** Or, behind, one that was handed to it before and is covered already. */
  ghost predicate Repeats(w: World, w': World, n: NodeId, x: Delivery) {
    && n in w.appliers && x in w.cluster.delivered && x.entry.index <= w.appliers[n].at
    && var a := w.appliers[n];
       w' == w.(appliers := w.appliers[n := Applier(a.at, Advanced(a.rep, x.entry))])
  }

  /** Some node's applier was in this state at moment `i` or before. */
  ghost predicate Had(ws: seq<World>, i: nat, a: Applier) {
    exists j, q :: 0 <= j <= i && j < |ws| && q in ws[j].appliers && ws[j].appliers[q] == a
  }

  ghost predicate Next(ws: seq<World>, i: nat)
    requires i + 1 < |ws|
  {
    var w, w' := ws[i], ws[i + 1];
    || (exists n, ev, env, from :: Had(ws, i, from) && EventStep(w, w', n, ev, env, from))
    || (exists n, from :: Had(ws, i, from) && Crashed(w, w', n, from))
    || (exists n, ev, env, from :: Had(ws, i, from) && Broken(w, w', n, ev, env, from))
    || (exists n :: Applies(w, w', n))
    || (exists n, x :: Repeats(w, w', n, x))
  }

  ghost predicate Starts(w: World) {
    Init(w.cluster) && w.appliers == map n | n in w.cluster.nodes :: Applier(0, R.Empty)
  }

  ghost predicate Run(ws: seq<World>) {
    ws != [] && Starts(ws[0]) && forall i :: 0 <= i < |ws| - 1 ==> Next(ws, i)
  }

  // ---------- what every step keeps ----------

  /** No entry is compacted away before the node's partition holds it. */
  ghost predicate Covered(w: World) {
    w.appliers.Keys == w.cluster.nodes.Keys &&
    forall n :: n in w.cluster.nodes ==> BaseOf(w.cluster, n) <= w.appliers[n].at
  }

  ghost predicate Tied(ws: seq<World>, i: nat, p: P.Proto)
    requires i < |ws|
  {
    && Sim(ws[i].cluster, p) && AllRise(p) && Covered(ws[i])
    && (forall a :: Had(ws, i, a) ==> Holds(p, a))
  }

  /** The appliers had so far, and the one a step leaves at `n`, hold committed records. */
  lemma HadStep(ws: seq<World>, i: nat, p: P.Proto, p': P.Proto, n: NodeId)
    requires i + 1 < |ws| && Tied(ws, i, p) && P.Extends(p, p')
    requires forall q ::
               q in ws[i + 1].appliers && q != n ==> q in ws[i].appliers && ws[i + 1].appliers[q] == ws[i].appliers[q]
    requires n in ws[i + 1].appliers ==> Holds(p', ws[i + 1].appliers[n])
    ensures forall a :: Had(ws, i + 1, a) ==> Holds(p', a)
  {
    hide Sim, AllRise, Covered, Holds, P.Extends;
    forall a | Had(ws, i + 1, a) ensures Holds(p', a) {
      var j, q :| 0 <= j <= i + 1 && j < |ws| && q in ws[j].appliers && ws[j].appliers[q] == a;
      if j == i + 1 && q == n {
      } else {
        if j == i + 1 { assert q in ws[i].appliers && ws[i].appliers[q] == a; }
        assert Had(ws, i, a);
        HoldsStays(p, p', a);
      }
    }
  }

  lemma HadNow(ws: seq<World>, i: nat, n: NodeId)
    requires i < |ws| && n in ws[i].appliers
    ensures Had(ws, i, ws[i].appliers[n])
  {
  }

  // ---------- events ----------

  lemma {:induction false} PerformLog(e: Effects, d: Disk, transfer: bool, env: Env, actions: seq<Action>)
    ensures Perform(e, d, transfer, env, actions).raft.log == e.raft.log
    decreases |actions|
  {
    if actions != [] { PerformLog(PerformOne(e, d, transfer, env, actions[0]), d, transfer, env, actions[1..]); }
  }

  lemma ProcessLog(node: Node, ev: Event, env: Env)
    ensures Process(node, ev, env).0.raft.log == React(node, ev, env).raft.log
  {
    hide React, Perform;
    var r := React(node, ev, env);
    var d := DiskAfter(node.disk, r.saved, if r.flush then r.raft.pending else []);
    var s := if r.flush then r.raft.(pending := []) else r.raft;
    PerformLog(Effects(s, {}, []), d, node.transfer, env, r.actions);
  }

  /** The base of the log moves to a point that was committed before, with a snapshot that was asked for or received. */
  lemma ReactBaseOk(p: P.Proto, n: NodeId, node: Node, ev: Event, env: Env) returns (t: Term)
    requires P.Inv(p) && NodeOk(p, n, node.raft) && (ev.Receive? ==> MessageOk(p, n, ev.msg))
    ensures var r := React(node, ev, env); var base, base' := node.raft.log.baseIndex, r.raft.log.baseIndex;
            && base <= base' && CommitPoint(p, base', t) && (r.saved.Some? ==> r.saved.value.lastIndex == base')
            && (base < base' ==>
                  ev.Receive? || (ev.SnapshotRequest? && (ev.through.Some? ==> base' <= ev.through.value)))
  {
    hide P.Inv, NodeOk, OnMessage, ElectionTimeout, Propose, HeartbeatTick, CommitPoint, CompactTo, TermAt, AppendOk;
    var s := node.raft;
    ReactBase(node, ev, env);
    NodePoint(p, n, s, s.log.baseIndex);
    t := s.term;
    match ev
    case Receive(m) =>
      MessageBase(s, m, 0);
      MessageBase(s, m, env.progress);
      if m.InstallSnapshot? && s.log.baseIndex < React(node, ev, env).raft.log.baseIndex { t := m.term; }
    case SnapshotRequest(data, through) =>
      if TakeSnapshot(s, data, through).Some? { NodePoint(p, n, s, React(node, ev, env).raft.log.baseIndex); }
    case _ =>
  }

  lemma NodePoint(p: P.Proto, n: NodeId, s: NodeState, c: nat)
    requires NodeOk(p, n, s)
    ensures s.log.baseIndex <= s.lastApplied <= s.commitIndex
    ensures c <= s.commitIndex ==> CommitPoint(p, c, s.term)
  {
    hide PeersOf, Represents, LeaderOk, CandidateOk, VoteOk, CommitKnown, CommitPoint;
    if c <= s.commitIndex {
      CommitKnownLess(p, p.full[n], s.commitIndex, c, s.term);
      CommitIsPoint(p, p.full[n], c, s.term);
    }
  }

  lemma SimNode(c: Cluster, p: P.Proto, n: NodeId)
    requires Sim(c, p) && n in c.nodes
    ensures P.Inv(p) && NodeOk(p, n, c.nodes[n].raft) && DiskRests(c.nodes[n].raft, c.nodes[n].disk)
  {
  }

  lemma SimMessage(c: Cluster, p: P.Proto, n: NodeId, ev: Event)
    requires Sim(c, p) && Enabled(c, n, ev) && ev.Receive?
    ensures MessageOk(p, n, ev.msg)
  {
    assert Packet(n, ev.msg) in c.net;
  }

  lemma HadHolds(ws: seq<World>, i: nat, p: P.Proto, a: Applier)
    requires i < |ws| && Tied(ws, i, p) && Had(ws, i, a)
    ensures Holds(p, a)
  {
  }

  /** A node whose partition covers what its log has lost, before an event. */
  ghost predicate Ready(w: World, p: P.Proto, n: NodeId, ev: Event) {
    && Sim(w.cluster, p) && AllRise(p) && Enabled(w.cluster, n, ev) && n in w.appliers && Asked(w, n, ev)
    && Holds(p, w.appliers[n]) && BaseOf(w.cluster, n) <= w.appliers[n].at
  }

  lemma ReadyFor(ws: seq<World>, i: nat, p: P.Proto, n: NodeId, ev: Event)
    requires i < |ws| && Tied(ws, i, p) && Enabled(ws[i].cluster, n, ev) && n in ws[i].appliers && Asked(ws[i], n, ev)
    ensures Ready(ws[i], p, n, ev)
  {
    hide Sim, AllRise, Holds, Asked, Enabled;
    HadNow(ws, i, n);
  }

  /** An event of the cluster keeps offsets rising. */
  lemma EventRises(w: World, p: P.Proto, n: NodeId, ev: Event, env: Env) returns (p': P.Proto)
    requires Ready(w, p, n, ev)
    ensures Sim(AfterEvent(w.cluster, n, ev, env), p') && P.Extends(p, p') && AllRise(p')
    ensures var base, base' := BaseOf(w.cluster, n), BaseOf(AfterEvent(w.cluster, n, ev, env), n);
            base <= base' && (ev.Receive? || base' <= Max(base, w.appliers[n].at))
  {
    hide Sim, NodeOk, DiskRests, P.Inv, P.Moved, AllRise, Holds, Process, React, MessageOk, Proposed, P.Extends, Origin,
         CommitPoint;
    var c, node := w.cluster, w.cluster.nodes[n];
    SimNode(c, p, n);
    if ev.Receive? { SimMessage(c, p, n, ev); }
    p' := EventSim(c, p, n, ev, env);
    MovedExtends(p, p', n);
    var c' := AfterEvent(c, n, ev, env);
    SimNode(c', p', n);
    ProcessLog(node, ev, env);
    var t := ReactBaseOk(p, n, node, ev, env);
    var s' := c'.nodes[n].raft;
    forall e | e in s'.log.entries ensures Origin(p, node.raft, ev, e) { EventOrigin(p, n, node, ev, env, e); }
    RiseStep(p, p', n, node.raft, s', w.appliers[n], ev, t);
  }

  /** An event of the cluster, with what it does to the node's partition. */
  lemma EventTied(ws: seq<World>, i: nat, p: P.Proto, n: NodeId, ev: Event, env: Env, from: Applier)
    returns (p': P.Proto)
    requires i + 1 < |ws| && Tied(ws, i, p) && Had(ws, i, from) && EventStep(ws[i], ws[i + 1], n, ev, env, from)
    ensures Tied(ws, i + 1, p') && P.Extends(p, p')
  {
    hide Sim, P.Inv, AllRise, Holds, Process, Asked, Had, P.Extends, Enabled, Ready;
    var w, w' := ws[i], ws[i + 1];
    ReadyFor(ws, i, p, n, ev);
    p' := EventRises(w, p, n, ev, env);
    HadNow(ws, i, n);
    HadHolds(ws, i, p, w.appliers[n]);
    HadHolds(ws, i, p, from);
    HoldsStays(p, p', w.appliers[n]);
    HoldsStays(p, p', from);
    SimInv(w'.cluster, p');
    BroughtHolds(w, w', p', n, ev, from);
    HadStep(ws, i, p, p', n);
  }

  lemma BroughtHolds(w: World, w': World, p: P.Proto, n: NodeId, ev: Event, from: Applier)
    requires n in w.cluster.nodes && n in w'.cluster.nodes && n in w.appliers && Brings(w, w', n, ev, from)
    requires P.Inv(p) && AllRise(p) && Holds(p, w.appliers[n]) && Holds(p, from)
    ensures Holds(p, w'.appliers[n])
  {
    hide P.Inv, AllRise, Holds;
    var a, base := w.appliers[n], BaseOf(w'.cluster, n);
    HoldsMerged(p, a, from);
    if ev.Receive? && BaseOf(w.cluster, n) < base {
      HoldsLess(p, Applier(Max(a.at, from.at), Merged(a.rep, from.rep)), Max(a.at, base));
    }
  }

  // ---------- restarts ----------

  lemma RestoredBase(me: NodeId, peers: seq<NodeId>, noop: bool, d: Disk)
    requires Restore(me, peers, noop, d).Some?
    ensures Restore(me, peers, noop, d).value.log.baseIndex ==
              match d.snapshot case None => 0 case Some(x) => x.lastIndex
  {
  }

  lemma CrashTied(ws: seq<World>, i: nat, p: P.Proto, n: NodeId, from: Applier)
    requires i + 1 < |ws| && Tied(ws, i, p) && Had(ws, i, from) && Crashed(ws[i], ws[i + 1], n, from)
    ensures Tied(ws, i + 1, p)
  {
    hide Sim, AllRise, Holds, Restarts, Had, P.Extends;
    var w, w' := ws[i], ws[i + 1];
    CrashSim(w.cluster, w'.cluster, p, n);
    HadHolds(ws, i, p, from);
    HoldsLess(p, from, BaseOf(w'.cluster, n));
    assert P.Extends(p, p) by { P.NothingMoves(p, n); MovedExtends(p, p, n); }
    HadStep(ws, i, p, p, n);
  }

  /** The base a restart from a crash inside an event has. */
  lemma TornBase(p: P.Proto, n: NodeId, node: Node, ev: Event, env: Env, d: Disk, node': Node) returns (t: Term)
    requires Resting(p, n, node.raft, node.disk) && (ev.Receive? ==> MessageOk(p, n, ev.msg))
    requires LeavesDisk(node, ev, env, d) && Restarts(node, d, node')
    ensures node.raft.log.baseIndex <= node'.raft.log.baseIndex && CommitPoint(p, node'.raft.log.baseIndex, t)
  {
    hide P.Inv, NodeOk, React, MessageOk, Torn, ApplyOps, SavedSafely, Restore, CommitPoint, TrimsTo;
    var r, s := React(node, ev, env), node.raft;
    var k: nat, m: nat :| k <= |r.raft.pending| && d == DiskAfter(node.disk, r.saved, Torn(r.raft.pending, k, m));
    var d0 := if r.saved.Some? then node.disk.(snapshot := r.saved) else node.disk;
    ReplaySnapshot(d0, Torn(r.raft.pending, k, m));
    RestoredBase(s.me, s.peers, s.noopOnElect, d);
    t := ReactBaseOk(p, n, node, ev, env);
    if r.saved.None? {
      NodePoint(p, n, s, s.log.baseIndex);
      t := s.term;
    }
  }

  /** So does an event that is cut short. */
  lemma BrokenRises(w: World, c': Cluster, p: P.Proto, n: NodeId, ev: Event, env: Env) returns (p': P.Proto)
    requires Ready(w, p, n, ev) && TornStep(w.cluster, c', n, ev, env)
    ensures Sim(c', p') && P.Extends(p, p') && AllRise(p')
  {
    hide Sim, NodeOk, DiskRests, P.Inv, P.Moved, AllRise, Holds, React, MessageOk, Proposed, P.Extends, LeavesDisk,
         Restore, Origin, CommitPoint;
    var c, node := w.cluster, w.cluster.nodes[n];
    var d, node' :| LeavesDisk(node, ev, env, d) && Restarts(node, d, node') && c' == c.(nodes := c.nodes[n := node']);
    SimNode(c, p, n);
    if ev.Receive? { SimMessage(c, p, n, ev); }
    p' := TornSim(c, c', p, n, ev, env);
    MovedExtends(p, p', n);
    SimNode(c', p', n);
    var t := TornBase(p, n, node, ev, env, d, node');
    forall e | e in node'.raft.log.entries && node.raft.log.baseIndex < e.index ensures Origin(p, node.raft, ev, e) {
      RestoredIn(node.raft.me, node.raft.peers, node.raft.noopOnElect, d, e);
      TornOrigin(p, n, node, ev, env, d, e);
    }
    RiseStep(p, p', n, node.raft, node'.raft, w.appliers[n], ev, t);
  }

  lemma TornNodes(c: Cluster, c': Cluster, n: NodeId, ev: Event, env: Env)
    requires TornStep(c, c', n, ev, env)
    ensures c'.nodes.Keys == c.nodes.Keys && n in c.nodes &&
            forall m :: m in c.nodes && m != n ==> c'.nodes[m] == c.nodes[m]
  {
    hide LeavesDisk, Restarts;
  }

  lemma BrokenTied(ws: seq<World>, i: nat, p: P.Proto, n: NodeId, ev: Event, env: Env, from: Applier)
    returns (p': P.Proto)
    requires i + 1 < |ws| && Tied(ws, i, p) && Had(ws, i, from) && Broken(ws[i], ws[i + 1], n, ev, env, from)
    ensures Tied(ws, i + 1, p') && P.Extends(p, p')
  {
    hide Sim, AllRise, Holds, Asked, Had, P.Extends, Enabled, Ready, LeavesDisk, Restarts;
    var w, w' := ws[i], ws[i + 1];
    ReadyFor(ws, i, p, n, ev);
    p' := BrokenRises(w, w'.cluster, p, n, ev, env);
    TornNodes(w.cluster, w'.cluster, n, ev, env);
    HadHolds(ws, i, p, from);
    HoldsStays(p, p', from);
    HoldsLess(p', from, BaseOf(w'.cluster, n));
    HadStep(ws, i, p, p', n);
  }

  // ---------- applying ----------

  lemma AppliesTied(ws: seq<World>, i: nat, p: P.Proto, n: NodeId)
    requires i + 1 < |ws| && Tied(ws, i, p) && Applies(ws[i], ws[i + 1], n)
    ensures Tied(ws, i + 1, p)
  {
    hide Sim, NodeOk, P.Inv, AllRise, Holds, Had, P.Extends, Get, Advanced, CommittedLog;
    var w := ws[i];
    var s, a := w.cluster.nodes[n].raft, w.appliers[n];
    SimNode(w.cluster, p, n);
    HadNow(ws, i, n);
    HadHolds(ws, i, p, a);
    NextCommitted(p, n, s, a.at + 1);
    HoldsNext(p, a, p.full[n][..a.at + 1]);
    assert P.Extends(p, p) by { P.NothingMoves(p, n); MovedExtends(p, p, n); }
    HadStep(ws, i, p, p, n);
  }

  lemma NextCommitted(p: P.Proto, n: NodeId, s: NodeState, k: nat)
    requires NodeOk(p, n, s) && 0 < k <= s.lastApplied && Get(s.log, k).Some?
    ensures n in p.full && k <= |p.full[n]| && CommittedLog(p, p.full[n][..k]) &&
            p.full[n][..k][k - 1] == Get(s.log, k).value
  {
    hide PeersOf, CommitKnown, LeaderOk, CandidateOk, VoteOk, Represents, Get, CommittedLog;
    NodeCommitted(p, n, s, k);
    RepresentsGet(s.log, p.full[n], k);
  }

  lemma RepeatsTied(ws: seq<World>, i: nat, p: P.Proto, n: NodeId, x: Delivery)
    requires i + 1 < |ws| && Tied(ws, i, p) && Repeats(ws[i], ws[i + 1], n, x)
    ensures Tied(ws, i + 1, p)
  {
    hide Sim, P.Inv, AllRise, Holds, Had, P.Extends, Advanced, CommittedLog;
    var w := ws[i];
    var a := w.appliers[n];
    HadNow(ws, i, n);
    HadHolds(ws, i, p, a);
    var h := DeliveredLog(w.cluster, p, x);
    HoldsAgain(p, a, h);
    assert P.Extends(p, p) by { P.NothingMoves(p, n); MovedExtends(p, p, n); }
    HadStep(ws, i, p, p, n);
  }

  /** What was handed to an application ends a committed log. */
  lemma DeliveredLog(c: Cluster, p: P.Proto, x: Delivery) returns (h: seq<LogEntry>)
    requires Sim(c, p) && x in c.delivered
    ensures P.Inv(p) && CommittedLog(p, h) && 0 < |h| == x.entry.index && h[|h| - 1] == x.entry
  {
    hide P.Inv, NodesOk, MessageOk, P.Committed;
    var u: Term, i: nat :| DeliveredBy(p, x.term, x.entry, u, i);
    CommittedIn(p, u, i);
    h := p.logs[u][..x.entry.index];
    PrefixCommitted(p, u, i, x.entry.index);
  }

  // ---------- every run ----------

  lemma StartTied(ws: seq<World>)
    requires Run(ws)
    ensures Tied(ws, 0, Start(ws[0].cluster.nodes.Keys))
  {
    hide P.Inv, Sim, Holds, Next;
    var p := Start(ws[0].cluster.nodes.Keys);
    InitSim(ws[0].cluster);
    forall a | Had(ws, 0, a) ensures Holds(p, a) {
      assert a == Applier(0, R.Empty);
      HoldsNothing(p);
    }
  }

  lemma NextTied(ws: seq<World>, i: nat, p: P.Proto) returns (p': P.Proto)
    requires i + 1 < |ws| && Tied(ws, i, p) && Next(ws, i)
    ensures Tied(ws, i + 1, p') && P.Extends(p, p')
  {
    hide Tied, Had, EventStep, Crashed, Broken, Applies, Repeats, P.Extends;
    var w, w' := ws[i], ws[i + 1];
    p' := p;
    P.NothingMoves(p, 0);
    MovedExtends(p, p, 0);
    if n, ev, env, from :| Had(ws, i, from) && EventStep(w, w', n, ev, env, from) {
      p' := EventTied(ws, i, p, n, ev, env, from);
    } else if n, from :| Had(ws, i, from) && Crashed(w, w', n, from) {
      CrashTied(ws, i, p, n, from);
    } else if n, ev, env, from :| Had(ws, i, from) && Broken(w, w', n, ev, env, from) {
      p' := BrokenTied(ws, i, p, n, ev, env, from);
    } else if n :| Applies(w, w', n) {
      AppliesTied(ws, i, p, n);
    } else {
      var n, x :| Repeats(w, w', n, x);
      RepeatsTied(ws, i, p, n, x);
    }
  }

  /** Two moments of a run, tied to states of the protocol of which the later extends the earlier. */
  lemma {:induction false} Moments(ws: seq<World>, i: nat, j: nat) returns (p: P.Proto, q: P.Proto)
    requires Run(ws) && i <= j < |ws|
    ensures Tied(ws, i, p) && Tied(ws, j, q) && P.Extends(p, q)
    decreases j
  {
    hide Tied, Next, Starts, P.Extends;
    if i == j {
      q := Moment(ws, j);
      p := q;
      P.NothingMoves(p, 0);
      MovedExtends(p, p, 0);
    } else {
      var r: P.Proto;
      p, r := Moments(ws, i, j - 1);
      assert Next(ws, j - 1);
      q := NextTied(ws, j - 1, r);
      P.ExtendsTrans(p, r, q);
    }
  }

  lemma {:induction false} Moment(ws: seq<World>, i: nat) returns (p: P.Proto)
    requires Run(ws) && i < |ws|
    ensures Tied(ws, i, p)
  {
    hide Tied, Next, Starts, P.Extends;
    if i == 0 {
      StartTied(ws);
      p := Start(ws[0].cluster.nodes.Keys);
    } else {
      var q := Moment(ws, i - 1);
      assert Next(ws, i - 1);
      p := NextTied(ws, i - 1, q);
    }
  }

  // ---------- what holds in every run ----------

  /** In every run, the offsets in every node's log rise, from entry to entry, also those not yet committed. */
  lemma OffsetsRise(ws: seq<World>, i: nat, n: NodeId)
    requires Run(ws) && i < |ws| && n in ws[i].cluster.nodes
    ensures R.Rising(Data(ws[i].cluster.nodes[n].raft.log.entries))
  {
    hide Run, Sim, AllRise, Covered, Had, Holds, NodeOk, Rises, Represents, P.Inv, R.Rising;
    var p := Moment(ws, i);
    var s := ws[i].cluster.nodes[n].raft;
    SimNode(ws[i].cluster, p, n);
    FullRises(p, n, s);
    NodeRepresents(p, n, s);
    EntriesAre(s.log, p.full[n]);
    RisesSuffix(p.full[n], s.log.baseIndex);
    DataRises(s.log.entries);
  }

  lemma EntriesAre(l: Log, full: seq<LogEntry>)
    requires Represents(l, full)
    ensures l.baseIndex <= |full| && l.entries == full[l.baseIndex..]
  {
  }

  /**
   Replicas agree: of any two partitions of a run, at any two moments, one holds the first records of the other,
   and two that end at the same offset hold the same records.
   */
  lemma ReplicasAgree(ws: seq<World>, i: nat, j: nat, n: NodeId, m: NodeId)
    requires Run(ws) && i <= j < |ws| && n in ws[i].appliers && m in ws[j].appliers
    ensures var a, b := ws[i].appliers[n].rep, ws[j].appliers[m].rep;
            && (a.records <= b.records || b.records <= a.records) && (a.next == b.next ==> a == b)
  {
    hide Run, Sim, AllRise, Covered, Had, CommittedLog, State, Rises, P.Inv, P.Extends;
    var p, q := Moments(ws, i, j);
    var a, b := ws[i].appliers[n], ws[j].appliers[m];
    HadNow(ws, i, n);
    HadNow(ws, j, m);
    HoldsStays(p, q, a);
    var l: seq<LogEntry> :| HoldsBy(q, a, l);
    var k: seq<LogEntry> :| HoldsBy(q, b, k);
    assert P.Inv(q) by { SimInv(ws[j].cluster, q); }
    CommittedRises(q, l);
    CommittedRises(q, k);
    if |l| <= |k| {
      CommittedOnce(q, l, k);
      StateMore(l, k);
    } else {
      CommittedOnce(q, k, l);
      StateMore(k, l);
    }
  }

  lemma SimInv(c: Cluster, p: P.Proto)
    requires Sim(c, p)
    ensures P.Inv(p)
  {
  }

  /** A replica holds every record of every entry that was handed to any node, up to the last it has applied. */
  lemma AppliedIsHeld(ws: seq<World>, i: nat, n: NodeId, x: Delivery)
    requires Run(ws) && i < |ws| && n in ws[i].appliers && x in ws[i].cluster.delivered
    requires x.entry.index <= ws[i].appliers[n].at && CmdOf(x.entry.payload).Some?
    ensures var c := CmdOf(x.entry.payload).value;
            forall r :: r in R.ToRecords(c.base, c.records) ==> r in ws[i].appliers[n].rep.records
  {
    hide Run, Sim, AllRise, Covered, Had, CommittedLog, State, Rises, P.Inv, CmdOf, R.ToRecords;
    var p := Moment(ws, i);
    var a := ws[i].appliers[n];
    HadNow(ws, i, n);
    var l: seq<LogEntry> :| HoldsBy(p, a, l);
    var h := DeliveredLog(ws[i].cluster, p, x);
    CommittedOnce(p, h, l);
    CommittedRises(p, l);
    assert l[|h| - 1] == x.entry;
    StateHas(l, |h| - 1);
  }

  /** No two entries handed over in a run give out the same offset: the earlier one ends before the later begins. */
  lemma DeliveredRise(ws: seq<World>, i: nat, x: Delivery, y: Delivery)
    requires Run(ws) && i < |ws| && x in ws[i].cluster.delivered && y in ws[i].cluster.delivered
    requires x.entry.index < y.entry.index && CmdOf(x.entry.payload).Some? && CmdOf(y.entry.payload).Some?
    ensures R.EndOfCmd(CmdOf(x.entry.payload).value) <= CmdOf(y.entry.payload).value.base
  {
    hide Run, Sim, AllRise, Covered, Had, Holds, CommittedLog, P.Inv, CmdOf, Rises;
    var p := Moment(ws, i);
    var h := DeliveredLog(ws[i].cluster, p, x);
    var k := DeliveredLog(ws[i].cluster, p, y);
    CommittedOnce(p, h, k);
    CommittedRises(p, k);
    RisesAt(k, |k| - 1);
    assert EndsBy(k[|h| - 1], CmdOf(y.entry.payload).value.base);
  }
}
