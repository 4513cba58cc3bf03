/**
 Where snapshots come from: in a cluster whose nodes send whole snapshots, what a node stores or is
 sent as a snapshot is what the application of some node gave for one, under the same index and term.
 */
module RaftGiven {
  import opened Basics
  import opened RaftTypes
  import opened RaftLog
  import opened RaftNode
  import opened RaftCluster
  import opened RaftDurable
  import opened RaftElect
  import opened RaftSettled

  // ---------- taking a snapshot ----------

  /** Where a snapshot that is asked for ends: what was applied, and no further than asked. */
  function Cut(s: NodeState, through: Option<LogIndex>): LogIndex {
    if through.Some? && through.value < s.lastApplied then through.value else s.lastApplied
  }

  /** A snapshot is taken exactly when it would cover something new; it covers what was applied, as asked. */
  lemma TakesExactly(s: NodeState, data: seq<byte>, through: Option<LogIndex>, full: seq<LogEntry>)
    requires Represents(s.log, full) && s.log.baseIndex <= s.lastApplied <= |full|
    ensures var r, cut := TakeSnapshot(s, data, through), Cut(s, through);
            && (r.Some? <==> s.log.baseIndex < cut)
            && (r.Some? ==>
                && r.value.1 == Snapshot(cut, full[cut - 1].term, data)
                && r.value.0.log.baseIndex == cut && Represents(r.value.0.log, full))
  {
    hide Represents, CompactTo, TermAt;
    var cut := Cut(s, through);
    if s.log.baseIndex < cut {
      RepresentsGet(s.log, full, cut);
      RepresentsCompact(s.log, full, cut, full[cut - 1].term);
      CompactMoves(s.log, cut, full[cut - 1].term);
    }
  }

  // ---------- what one event stores and sends ----------

  ghost predicate TakesAs(s: NodeState, ev: Event, snap: Snapshot) {
    ev.SnapshotRequest? && TakeSnapshot(s, ev.data, ev.through).Some? &&
    TakeSnapshot(s, ev.data, ev.through).value.1 == snap
  }

  /** A snapshot is saved by the application's request or from a message that carries it. */
  lemma SavedFrom(node: Node, ev: Event, env: Env)
    requires !node.transfer
    ensures var saved := React(node, ev, env).saved;
            saved.Some? ==>
              || TakesAs(node.raft, ev, saved.value)
              || (ev.Receive? && ev.msg.InstallSnapshot? &&
                  saved.value == Snapshot(ev.msg.lastIndex, ev.msg.lastTerm, ev.msg.data))
  {
    hide OnMessage, ElectionTimeout, Propose, TakeSnapshot, HeartbeatTick;
  }

  predicate Plain(actions: seq<Action>) {
    forall a :: a in actions ==> (a.SendTo? || a.Broadcast? ==> !a.msg.InstallSnapshot?)
  }

  lemma DispatchPlain(s: NodeState, m: Message, progress: nat)
    ensures Plain(Dispatch(s, m, progress).actions)
  {
    hide Recompute, BecomeLeader, AcceptEntries, InstallDone, Follow, LastIndex, LastTerm, PersistHard, BuildAppend;
    BuildsPlain();
    if m.RequestVoteResp? { BeatsPlain(BecomeLeader(s.(votes := s.votes + {m.voter}))); }
  }

  lemma BuildsPlain()
    ensures forall s, peer :: BuildAppend(s, peer).AppendEntries?
  {
    hide SliceBounded, TermAt;
  }

  lemma BeatsPlain(s: NodeState)
    ensures Plain(HeartbeatTick(s))
  {
    hide BuildAppend;
    BuildsPlain();
  }

  lemma DrainPlain(s: NodeState)
    ensures Plain(Drain(s).actions)
  {
    hide DrainFrom;
    DrainSends(s.log, s.lastApplied, s.commitIndex);
  }

  lemma MessagePlain(s: NodeState, m: Message, progress: nat)
    ensures Plain(OnMessage(s, m, progress).actions)
  {
    hide Dispatch, Drain, StepDown;
    if !Ignored(s, m) {
      var r := Dispatch(if s.term < m.term then StepDown(s, m.term) else s, m, progress);
      DispatchPlain(if s.term < m.term then StepDown(s, m.term) else s, m, progress);
      DrainPlain(r.state);
    }
  }

  lemma TimeoutPlain(s: NodeState)
    ensures Plain(ElectionTimeout(s).actions)
  {
    hide BecomeLeader, Drain, HeartbeatTick, Campaign;
    var l := BecomeLeader(Campaign(s));
    BeatsPlain(l);
    DrainPlain(l);
  }

  lemma ProposePlain(s: NodeState, payload: seq<byte>)
    ensures Plain(Propose(s, payload).1.actions)
  {
    hide Recompute, Drain, AppendLocal;
    DrainPlain(Recompute(AppendLocal(s, payload)));
  }

  /** No handler sends a snapshot but through the disk. */
  lemma ReactPlain(node: Node, ev: Event, env: Env)
    ensures Plain(React(node, ev, env).actions)
  {
    hide OnMessage, ElectionTimeout, Propose, TakeSnapshot, HeartbeatTick;
    match ev
    case Receive(m) =>
      MessagePlain(node.raft, m, 0);
      MessagePlain(node.raft, m, env.progress);
    case Timeout => TimeoutPlain(node.raft);
    case Tick => BeatsPlain(node.raft);
    case Submit(payload) =>
      ProposePlain(node.raft, payload);
      BeatsPlain(Propose(node.raft, payload).1.state);
    case SnapshotRequest(_, _) =>
  }

  predicate Carries(m: Message, snap: Snapshot) {
    m.InstallSnapshot? && m.done && m.offset == 0 && Snapshot(m.lastIndex, m.lastTerm, m.data) == snap
  }

  /** What is sent as a snapshot is the one on disk, whole. */
  lemma {:induction false} PerformSends(e: Effects, d: Disk, env: Env, actions: seq<Action>, pk: Packet)
    requires Plain(actions) && pk in Perform(e, d, false, env, actions).sent && pk !in e.sent && pk.msg.InstallSnapshot?
    ensures d.snapshot.Some? && Carries(pk.msg, d.snapshot.value)
    decreases |actions|
  {
    if actions != [] {
      var e1 := PerformOne(e, d, false, env, actions[0]);
      assert actions[0] in actions;
      if pk !in e1.sent { PerformSends(e1, d, env, actions[1..], pk); }
    }
  }

  lemma EventSends(node: Node, ev: Event, env: Env, pk: Packet)
    requires !node.transfer && pk in Process(node, ev, env).1.sent && pk.msg.InstallSnapshot?
    ensures var d := Process(node, ev, env).0.disk; d.snapshot.Some? && Carries(pk.msg, d.snapshot.value)
  {
    hide React, Perform, Plain, DiskAfter, Carries;
    var r := React(node, ev, env);
    ReactPlain(node, ev, env);
    var d := DiskAfter(node.disk, r.saved, if r.flush then r.raft.pending else []);
    PerformSends(Effects(if r.flush then r.raft.(pending := []) else r.raft, {}, []), d, env, r.actions, pk);
  }

  lemma StoredIs(d: Disk, saved: Option<Snapshot>, ops: seq<PersistOp>)
    ensures DiskAfter(d, saved, ops).snapshot == if saved.Some? then saved else d.snapshot
  {
    hide ApplyOps;
    ReplaySnapshot(if saved.Some? then d.(snapshot := saved) else d, ops);
  }

  // ---------- every run ----------

  /** The step is one in which a node takes this snapshot. */
  ghost predicate TakeStep(c: Cluster, c': Cluster, n: NodeId, ev: Event, env: Env, snap: Snapshot) {
    && n in c.nodes && TakesAs(c.nodes[n].raft, ev, snap)
    && (c' == AfterEvent(c, n, ev, env) || TornStep(c, c', n, ev, env))
  }

  ghost predicate Takes(c: Cluster, c': Cluster, snap: Snapshot) {
    exists n, ev, env :: TakeStep(c, c', n, ev, env, snap)
  }

  ghost predicate TakenAt(trace: seq<Cluster>, j: nat, snap: Snapshot)
    requires j + 1 < |trace|
  {
    Takes(trace[j], trace[j + 1], snap)
  }

  ghost predicate Taken(trace: seq<Cluster>, i: nat, snap: Snapshot) {
    i < |trace| && exists j :: 0 <= j < i && TakenAt(trace, j, snap)
  }

  /** A snapshot that was taken holds the data of its request and ends where that asked, at what was applied. */
  lemma TakenData(trace: seq<Cluster>, i: nat, snap: Snapshot) returns (j: nat, n: NodeId, ev: Event)
    requires Taken(trace, i, snap)
    ensures j < i < |trace| && n in trace[j].nodes && ev.SnapshotRequest? && snap.data == ev.data
    ensures var s := trace[j].nodes[n].raft;
            snap.lastIndex == Cut(s, ev.through) <= s.lastApplied &&
            TermAt(s.log, snap.lastIndex) == Some(snap.lastTerm)
  {
    hide AfterEvent, TornStep, TermAt, CompactTo;
    j :| 0 <= j < i && TakenAt(trace, j, snap);
    var env: Env;
    n, ev, env :| TakeStep(trace[j], trace[j + 1], n, ev, env, snap);
  }

  ghost predicate Whole(c: Cluster) {
    forall n :: n in c.nodes ==> !c.nodes[n].transfer
  }

  /** Every snapshot stored or under way was given by the application. */
  ghost predicate AllGiven(trace: seq<Cluster>, i: nat)
    requires i < |trace|
  {
    && Whole(trace[i])
    && (forall n :: n in trace[i].nodes && trace[i].nodes[n].disk.snapshot.Some? ==>
                      Taken(trace, i, trace[i].nodes[n].disk.snapshot.value))
    && (forall pk :: pk in trace[i].net && pk.msg.InstallSnapshot? ==>
                       Taken(trace, i, Snapshot(pk.msg.lastIndex, pk.msg.lastTerm, pk.msg.data)))
  }

  lemma TakenStays(trace: seq<Cluster>, i: nat, snap: Snapshot)
    requires Taken(trace, i, snap) && i + 1 < |trace|
    ensures Taken(trace, i + 1, snap)
  {
    hide TakenAt;
    var j :| 0 <= j < i && TakenAt(trace, j, snap);
    assert 0 <= j < i + 1 && TakenAt(trace, j, snap);
  }

  /** What a node has stored after an event or in the middle of it. */
  lemma StepStores(trace: seq<Cluster>, i: nat, n: NodeId, ev: Event, env: Env, ops: seq<PersistOp>)
    requires i + 1 < |trace| && AllGiven(trace, i) && Enabled(trace[i], n, ev)
    requires trace[i + 1] == AfterEvent(trace[i], n, ev, env) || TornStep(trace[i], trace[i + 1], n, ev, env)
    ensures var node := trace[i].nodes[n]; var d := DiskAfter(node.disk, React(node, ev, env).saved, ops);
            d.snapshot.Some? ==> Taken(trace, i + 1, d.snapshot.value)
  {
    hide React, AfterEvent, TornStep, Taken, TakesAs, DiskAfter;
    var node := trace[i].nodes[n];
    var saved := React(node, ev, env).saved;
    SavedFrom(node, ev, env);
    StoredIs(node.disk, saved, ops);
    var d := DiskAfter(node.disk, saved, ops);
    if saved.Some? && TakesAs(node.raft, ev, saved.value) {
      assert TakeStep(trace[i], trace[i + 1], n, ev, env, saved.value);
      TakenNow(trace, i, n, ev, env, saved.value);
    } else if d.snapshot.Some? {
      if saved.Some? { assert Packet(n, ev.msg) in trace[i].net; }
      TakenStays(trace, i, d.snapshot.value);
    }
  }

  lemma TakenNow(trace: seq<Cluster>, i: nat, n: NodeId, ev: Event, env: Env, snap: Snapshot)
    requires i + 1 < |trace| && TakeStep(trace[i], trace[i + 1], n, ev, env, snap)
    ensures Taken(trace, i + 1, snap)
  {
    hide TakeStep;
    assert TakenAt(trace, i, snap);
  }

  lemma EventGiven(trace: seq<Cluster>, i: nat, n: NodeId, ev: Event, env: Env)
    requires i + 1 < |trace| && AllGiven(trace, i) && Enabled(trace[i], n, ev)
    requires trace[i + 1] == AfterEvent(trace[i], n, ev, env)
    ensures AllGiven(trace, i + 1)
  {
    hide React, Taken, Perform, Carries, TornStep, DiskAfter;
    var c, c', node := trace[i], trace[i + 1], trace[i].nodes[n];
    var r := React(node, ev, env);
    StepStores(trace, i, n, ev, env, if r.flush then r.raft.pending else []);
    forall q | q in c'.nodes && c'.nodes[q].disk.snapshot.Some?
      ensures Taken(trace, i + 1, c'.nodes[q].disk.snapshot.value)
    {
      if q != n { TakenStays(trace, i, c.nodes[q].disk.snapshot.value); }
    }
    forall pk | pk in c'.net && pk.msg.InstallSnapshot?
      ensures Taken(trace, i + 1, Snapshot(pk.msg.lastIndex, pk.msg.lastTerm, pk.msg.data))
    {
      if pk in c.net {
        TakenStays(trace, i, Snapshot(pk.msg.lastIndex, pk.msg.lastTerm, pk.msg.data));
      } else {
        EventSends(node, ev, env, pk);
        CarriedIs(pk.msg, c'.nodes[n].disk.snapshot.value);
      }
    }
  }

  lemma CarriedIs(m: Message, snap: Snapshot)
    requires Carries(m, snap)
    ensures m.InstallSnapshot? && Snapshot(m.lastIndex, m.lastTerm, m.data) == snap
  {
  }

  /** A restart from a disk all of whose snapshots were given. */
  lemma RestartGiven(trace: seq<Cluster>, i: nat, n: NodeId, d: Disk, node': Node)
    requires i + 1 < |trace| && AllGiven(trace, i) && n in trace[i].nodes && Restarts(trace[i].nodes[n], d, node')
    requires trace[i + 1] == trace[i].(nodes := trace[i].nodes[n := node'])
    requires d.snapshot.Some? ==> Taken(trace, i + 1, d.snapshot.value)
    ensures AllGiven(trace, i + 1)
  {
    hide Taken, Restore;
    var c, c' := trace[i], trace[i + 1];
    forall q | q in c'.nodes && c'.nodes[q].disk.snapshot.Some?
      ensures Taken(trace, i + 1, c'.nodes[q].disk.snapshot.value)
    {
      if q != n { TakenStays(trace, i, c.nodes[q].disk.snapshot.value); }
    }
    forall pk | pk in c'.net && pk.msg.InstallSnapshot?
      ensures Taken(trace, i + 1, Snapshot(pk.msg.lastIndex, pk.msg.lastTerm, pk.msg.data))
    {
      TakenStays(trace, i, Snapshot(pk.msg.lastIndex, pk.msg.lastTerm, pk.msg.data));
    }
  }

  lemma StepGiven(trace: seq<Cluster>, i: nat)
    requires i + 1 < |trace| && AllGiven(trace, i) && Next(trace[i], trace[i + 1])
    ensures AllGiven(trace, i + 1)
  {
    hide AllGiven, AfterEvent, Taken, Restarts, React, DiskAfter, Torn;
    var c, c' := trace[i], trace[i + 1];
    if n, ev, env :| Enabled(c, n, ev) && c' == AfterEvent(c, n, ev, env) {
      EventGiven(trace, i, n, ev, env);
    } else if n :| CrashStep(c, c', n) {
      var node' :| Restarts(c.nodes[n], c.nodes[n].disk, node') && c' == c.(nodes := c.nodes[n := node']);
      if c.nodes[n].disk.snapshot.Some? { StoredGiven(trace, i, n); }
      RestartGiven(trace, i, n, c.nodes[n].disk, node');
    } else {
      var n, ev, env :| TornStep(c, c', n, ev, env);
      var d, node' :| LeavesDisk(c.nodes[n], ev, env, d) && Restarts(c.nodes[n], d, node') &&
                      c' == c.(nodes := c.nodes[n := node']);
      var r := React(c.nodes[n], ev, env);
      var k: nat, m: nat :| k <= |r.raft.pending| &&
                            d == DiskAfter(c.nodes[n].disk, r.saved, Torn(r.raft.pending, k, m));
      StepStores(trace, i, n, ev, env, Torn(r.raft.pending, k, m));
      RestartGiven(trace, i, n, d, node');
    }
  }

  lemma StoredGiven(trace: seq<Cluster>, i: nat, n: NodeId)
    requires i + 1 < |trace| && AllGiven(trace, i) && n in trace[i].nodes && trace[i].nodes[n].disk.snapshot.Some?
    ensures Taken(trace, i + 1, trace[i].nodes[n].disk.snapshot.value)
  {
    hide Taken;
    TakenStays(trace, i, trace[i].nodes[n].disk.snapshot.value);
  }

  /**
   In every run of a cluster whose nodes send whole snapshots, every snapshot a node has stored and every
   one on the way is one that some node took earlier, with the data its application gave for it.
   */
  lemma {:induction false} SnapshotsGiven(trace: seq<Cluster>, i: nat)
    requires Run(trace) && i < |trace| && Whole(trace[0])
    ensures AllGiven(trace, i)
    decreases i
  {
    hide AllGiven, Next;
    if i == 0 {
      StartGiven(trace);
    } else {
      SnapshotsGiven(trace, i - 1);
      assert Next(trace[i - 1], trace[i - 1 + 1]);
      StepGiven(trace, i - 1);
    }
  }

  lemma StartGiven(trace: seq<Cluster>)
    requires trace != [] && Init(trace[0]) && Whole(trace[0])
    ensures AllGiven(trace, 0)
  {
  }
}
