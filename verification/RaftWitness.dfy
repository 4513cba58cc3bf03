/**
 A run that does something: two nodes elect a leader, replicate an entry and both apply it. So what is
 stated for every run is stated for runs with leaders, committed entries and deliveries.
 */
module RaftWitness {
  import opened Basics
  import opened RaftTypes
  import opened RaftLog
  import opened RaftNode
  import opened RaftCluster

  const Quiet := Env(false, 0, [], map[])

  function Entry(payload: seq<byte>): LogEntry {
    LogEntry(1, 1, payload)
  }

  function Asleep(n: NodeId, peer: NodeId): Node {
    Node(Fresh(n, [peer], false), Disk(0, None, [], None), false)
  }

  // ---------- the states of the two nodes ----------

  function Candidate0(): Node {
    Node(NodeState(0, [1], Candidate, 1, Some(0), None, Log([], 0, 0), 0, 0, map[], map[], map[], false, {0}, []),
         Disk(1, Some(0), [], None), false)
  }

  function Voter1(): Node {
    Node(NodeState(1, [0], Follower, 1, Some(0), None, Log([], 0, 0), 0, 0, map[], map[], map[], false, {}, []),
         Disk(1, Some(0), [], None), false)
  }

  function Leader0(): Node {
    Node(NodeState(0, [1], Leader, 1, Some(0), Some(0), Log([], 0, 0), 0, 0, map[1 := 0], map[1 := 1],
                   map[], false, {}, []),
         Disk(1, Some(0), [], None), false)
  }

  function Proposer0(payload: seq<byte>): Node {
    var e := Entry(payload);
    Node(NodeState(0, [1], Leader, 1, Some(0), Some(0), Log([e], 0, 0), 0, 0, map[1 := 0], map[1 := 1],
                   map[], false, {}, []),
         Disk(1, Some(0), [e], None), false)
  }

  function Holder1(payload: seq<byte>): Node {
    var e := Entry(payload);
    Node(NodeState(1, [0], Follower, 1, Some(0), Some(0), Log([e], 0, 0), 0, 0, map[], map[], map[], false, {}, []),
         Disk(1, Some(0), [e], None), false)
  }

  /** The leader once the entry is committed and applied. */
  function Committer0(payload: seq<byte>): Node {
    var node := Proposer0(payload);
    node.(raft := node.raft.(commitIndex := 1, lastApplied := 1, matchIndex := map[1 := 1], nextIndex := map[1 := 2]))
  }

  // ---------- the eight events ----------

  lemma Campaigns()
    ensures var (node, e) := Process(Asleep(0, 1), Timeout, Quiet);
            node == Candidate0() && Packet(1, RequestVote(1, 0, 0, 0)) in e.sent
  {
    var r := React(Asleep(0, 1), Timeout, Quiet);
    assert r.raft.pending == [HardState(1, Some(0))];
    assert r.actions == [ResetElectionTimer, Broadcast(RequestVote(1, 0, 0, 0))];
    OneOp(Disk(0, None, [], None), HardState(1, Some(0)));
    var e0 := Effects(r.raft.(pending := []), {}, []);
    TwoActions(e0, Disk(1, Some(0), [], None), false, Quiet, r.actions);
  }

  lemma Votes()
    ensures var (node, e) := Process(Asleep(1, 0), Receive(RequestVote(1, 0, 0, 0)), Quiet);
            node == Voter1() && Packet(0, RequestVoteResp(1, true, 1)) in e.sent
  {
    var m := RequestVote(1, 0, 0, 0);
    var r := React(Asleep(1, 0), Receive(m), Quiet);
    var s1 := StepDown(Asleep(1, 0).raft, 1);
    assert s1.pending == [HardState(1, None)];
    assert WithoutHardState([HardState(1, None)]) == [];
    assert HandleRequestVote(s1, m).state.pending == [HardState(1, Some(0))];
    assert r.raft.pending == [HardState(1, Some(0))];
    assert r.actions == [SendTo(0, RequestVoteResp(1, true, 1)), ResetElectionTimer];
    OneOp(Disk(0, None, [], None), HardState(1, Some(0)));
    var e0 := Effects(r.raft.(pending := []), {}, []);
    TwoActions(e0, Disk(1, Some(0), [], None), false, Quiet, r.actions);
  }

  lemma Wins()
    ensures Process(Candidate0(), Receive(RequestVoteResp(1, true, 1)), Quiet).0 == Leader0()
  {
    hide BuildAppend, Recompute;
    var m := RequestVoteResp(1, true, 1);
    var s := Candidate0().raft;
    assert s.votes + {1} == {0, 1} && |{0, 1}| == 2;
    Claims();
    var l := Leader0().raft;
    NothingHeld();
    var msg := BuildAppend(l, 1);
    assert HeartbeatTick(l) == [SendTo(1, msg)];
    assert React(Candidate0(), Receive(m), Quiet) == Reaction(l, [SendTo(1, msg)], None, true) by {
      assert [SendTo(1, msg)] + [] == [SendTo(1, msg)];
    }
    NoOps(Candidate0().disk);
    OneAction(Effects(l, {}, []), Candidate0().disk, false, Quiet, [SendTo(1, msg)]);
  }

  lemma Claims()
    ensures TrackPeers(Claim(Candidate0().raft.(votes := {0, 1}))) == Leader0().raft
  {
    assert (map p | p in [1] :: 0) == map[1 := 0];
    assert (map p | p in [1] :: 1) == map[1 := 1];
  }

  /** A leader that knows of nothing held commits nothing. */
  lemma NothingHeld()
    ensures Recompute(Leader0().raft) == Leader0().raft
  {
    var s := Leader0().raft;
    assert Replicated(s) == [0, 0];
    SortTwo(0, 0);
  }

  lemma SortTwo(a: nat, b: nat)
    ensures Sorted([a, b]) == if a <= b then [a, b] else [b, a]
  {
    assert [a, b][1..] == [b] && [b][1..] == [];
    assert Sorted([]) == [];
    assert Sorted([b]) == [b];
    assert InsertSorted(a, [b]) == if a <= b then [a, b] else [b, a];
  }

  /** The leader with the entry in its log, before it is durable. */
  function Wrote0(payload: seq<byte>): NodeState {
    Proposer0(payload).raft.(pending := [Append([Entry(payload)])])
  }

  lemma Appends(payload: seq<byte>)
    ensures AppendLocal(Leader0().raft, payload) == Wrote0(payload)
  {
  }

  /** One holder of two is no majority. */
  lemma OneHolds(payload: seq<byte>)
    ensures Recompute(Wrote0(payload)) == Wrote0(payload)
  {
    hide Sorted;
    assert Replicated(Wrote0(payload)) == [0, 1];
    SortTwo(0, 1);
  }

  lemma Sends(payload: seq<byte>)
    ensures HeartbeatTick(Wrote0(payload)) == [SendTo(1, AppendEntries(1, 0, 0, 0, [Entry(payload)], 0))]
  {
    var s := Wrote0(payload);
    assert EntriesFrom(s.log, 1) == [Entry(payload)];
    assert SliceBounded(s.log, 1, MAX_APPEND_ENTRIES, MAX_APPEND_BYTES) == [Entry(payload)];
    assert BuildAppend(s, 1) == AppendEntries(1, 0, 0, 0, [Entry(payload)], 0);
  }

  lemma Proposes(payload: seq<byte>)
    ensures var (node, e) := Process(Leader0(), Submit(payload), Quiet);
            node == Proposer0(payload) && Packet(1, AppendEntries(1, 0, 0, 0, [Entry(payload)], 0)) in e.sent
  {
    hide AppendLocal, Recompute, HeartbeatTick, Get, ApplyOps, Perform;
    var entry := Entry(payload);
    var msg := AppendEntries(1, 0, 0, 0, [entry], 0);
    Appends(payload);
    OneHolds(payload);
    Sends(payload);
    var r := React(Leader0(), Submit(payload), Quiet);
    assert r == Reaction(Wrote0(payload), [SendTo(1, msg)], None, true) by {
      assert [] + [SendTo(1, msg)] == [SendTo(1, msg)];
    }
    OneOp(Leader0().disk, Append([entry]));
    assert [] + [entry] == [entry];
    OneAction(Effects(Proposer0(payload).raft, {}, []), Proposer0(payload).disk, false, Quiet, r.actions);
  }

  lemma Follows(payload: seq<byte>)
    ensures var (node, e) := Process(Voter1(), Receive(AppendEntries(1, 0, 0, 0, [Entry(payload)], 0)), Quiet);
            node == Holder1(payload) && Packet(0, AppendEntriesResp(1, true, 1, 1)) in e.sent
  {
    var entry := Entry(payload);
    var m := AppendEntries(1, 0, 0, 0, [entry], 0);
    var s1 := Follow(Voter1().raft, 1, 0);
    assert ScanFrom(s1.log, 1, [entry], 0) == Scan(0, false);
    assert [entry][0..] == [entry];
    assert Renumber([entry], 1) == [entry];
    assert AppendAt(s1.log, 1, [entry], 0) == Appended(Log([entry], 0, 0), Some(1)) by {
      assert [] + [entry] == [entry];
    }
    assert EntriesFrom(Log([entry], 0, 0), 1) == [entry];
    var r := React(Voter1(), Receive(m), Quiet);
    assert r.raft.pending == [TruncateFrom(1), Append([entry])];
    assert r.actions == [SendTo(0, AppendEntriesResp(1, true, 1, 1)), ResetElectionTimer];
    TwoOps(Voter1().disk, TruncateFrom(1), Append([entry]));
    assert Below([], 1) == [] && [] + [entry] == [entry];
    TwoActions(Effects(r.raft.(pending := []), {}, []), Holder1(payload).disk, false, Quiet, r.actions);
  }

  lemma Delivers(payload: seq<byte>)
    requires payload != []
    ensures var (node, e) := Process(Proposer0(payload), Receive(AppendEntriesResp(1, true, 1, 1)), Quiet);
            node == Committer0(payload) && e.applied == [Entry(payload)]
  {
    var entry := Entry(payload);
    var m := AppendEntriesResp(1, true, 1, 1);
    var s := Proposer0(payload).raft;
    var s1 := NoteMatch(s, 1, 1);
    assert s1.matchIndex == map[1 := 1] && s1.nextIndex == map[1 := 2];
    assert Replicated(s1) == [1, 1];
    SortTwo(1, 1);
    var s2 := s1.(commitIndex := 1);
    assert Recompute(s1) == s2;
    assert DrainFrom(s2.log, 1, 1) == [];
    assert DrainFrom(s2.log, 0, 1) == [Apply(entry)];
    var r := React(Proposer0(payload), Receive(m), Quiet);
    assert r.raft == s2.(lastApplied := 1) && r.actions == [Apply(entry)];
    NoOps(Proposer0(payload).disk);
    OneAction(Effects(r.raft, {}, []), Proposer0(payload).disk, false, Quiet, r.actions);
  }

  lemma Beats(payload: seq<byte>)
    ensures var (node, e) := Process(Committer0(payload), Tick, Quiet);
            node == Committer0(payload) && Packet(1, AppendEntries(1, 0, 1, 1, [], 1)) in e.sent
  {
    var s := Committer0(payload).raft;
    var msg := AppendEntries(1, 0, 1, 1, [], 1);
    assert SliceBounded(s.log, 2, MAX_APPEND_ENTRIES, MAX_APPEND_BYTES) == [];
    assert BuildAppend(s, 1) == msg;
    assert HeartbeatTick(s) == [SendTo(1, msg)];
    NoOps(Committer0(payload).disk);
    OneAction(Effects(s, {}, []), Committer0(payload).disk, false, Quiet, [SendTo(1, msg)]);
  }

  lemma Learns(payload: seq<byte>)
    requires payload != []
    ensures var (node, e) := Process(Holder1(payload), Receive(AppendEntries(1, 0, 1, 1, [], 1)), Quiet);
            && node.raft == Holder1(payload).raft.(commitIndex := 1, lastApplied := 1)
            && e.applied == [Entry(payload)]
  {
    var entry := Entry(payload);
    var m := AppendEntries(1, 0, 1, 1, [], 1);
    var s := Holder1(payload).raft;
    var resp := SendTo(0, AppendEntriesResp(1, true, 1, 1));
    var s2 := s.(commitIndex := 1);
    assert HandleAppendEntries(s, m) == Step(s2, [resp, ResetElectionTimer]);
    assert DrainFrom(s2.log, 1, 1) == [];
    assert DrainFrom(s2.log, 0, 1) == [Apply(entry)];
    var r := React(Holder1(payload), Receive(m), Quiet);
    assert r.raft == s2.(lastApplied := 1) && r.actions == [resp, ResetElectionTimer, Apply(entry)];
    NoOps(Holder1(payload).disk);
    ThreeActions(Effects(r.raft, {}, []), Holder1(payload).disk, false, Quiet, r.actions);
  }

  // ---------- unrolling ----------

  lemma OneOp(d: Disk, op: PersistOp)
    ensures ApplyOps(d, [op]) == ApplyOp(d, op)
  {
    assert [op][1..] == [];
  }

  lemma TwoOps(d: Disk, a: PersistOp, b: PersistOp)
    ensures ApplyOps(d, [a, b]) == ApplyOp(ApplyOp(d, a), b)
  {
    assert [a, b][1..] == [b];
    OneOp(ApplyOp(d, a), b);
  }

  lemma OneAction(e: Effects, d: Disk, transfer: bool, env: Env, actions: seq<Action>)
    requires |actions| == 1
    ensures Perform(e, d, transfer, env, actions) == PerformOne(e, d, transfer, env, actions[0])
  {
    assert actions[1..] == [];
  }

  lemma TwoActions(e: Effects, d: Disk, transfer: bool, env: Env, actions: seq<Action>)
    requires |actions| == 2
    ensures Perform(e, d, transfer, env, actions)
            == PerformOne(PerformOne(e, d, transfer, env, actions[0]), d, transfer, env, actions[1])
  {
    assert actions[1..] == [actions[1]];
    OneAction(PerformOne(e, d, transfer, env, actions[0]), d, transfer, env, actions[1..]);
  }

  lemma ThreeActions(e: Effects, d: Disk, transfer: bool, env: Env, actions: seq<Action>)
    requires |actions| == 3
    ensures var e1 := PerformOne(e, d, transfer, env, actions[0]);
            Perform(e, d, transfer, env, actions)
            == PerformOne(PerformOne(e1, d, transfer, env, actions[1]), d, transfer, env, actions[2])
  {
    hide PerformOne;
    assert actions[1..] == [actions[1], actions[2]];
    TwoActions(PerformOne(e, d, transfer, env, actions[0]), d, transfer, env, actions[1..]);
  }

  // ---------- the run ----------

  lemma StartsAsleep()
    ensures Init(Cluster(map[0 := Asleep(0, 1), 1 := Asleep(1, 0)], {}, {}))
  {
  }

  /** An event of the run, which takes no snapshot and proposes only to an empty log. */
  ghost predicate PlainStep(c: Cluster, c': Cluster, n: NodeId, ev: Event, payload: seq<byte>) {
    && Enabled(c, n, ev) && c' == AfterEvent(c, n, ev, Quiet) && !ev.SnapshotRequest?
    && c.nodes[n].raft.log.baseIndex == c'.nodes[n].raft.log.baseIndex == 0
    && (ev.Submit? ==> ev.payload == payload && c.nodes[n].raft.log.entries == [])
  }

  ghost predicate PlainNext(c: Cluster, c': Cluster, payload: seq<byte>) {
    exists n, ev :: PlainStep(c, c', n, ev, payload)
  }

  lemma OnePlain(c: Cluster, n: NodeId, ev: Event, payload: seq<byte>)
    requires Enabled(c, n, ev) && !ev.SnapshotRequest?
    requires c.nodes[n].raft.log.baseIndex == Process(c.nodes[n], ev, Quiet).0.raft.log.baseIndex == 0
    requires ev.Submit? ==> ev.payload == payload && c.nodes[n].raft.log.entries == []
    ensures var c' := AfterEvent(c, n, ev, Quiet); var (node, e) := Process(c.nodes[n], ev, Quiet);
            && PlainNext(c, c', payload) && c'.nodes == c.nodes[n := node] && c'.net == c.net + e.sent
            && (forall x :: x in e.applied ==> Delivery(n, node.raft.term, x) in c'.delivered) &&
               c.delivered <= c'.delivered
  {
    hide Process;
    assert PlainStep(c, AfterEvent(c, n, ev, Quiet), n, ev, payload);
  }

  lemma PlainIsNext(c: Cluster, c': Cluster, payload: seq<byte>)
    requires PlainNext(c, c', payload)
    ensures Next(c, c')
  {
    hide AfterEvent, Enabled;
  }

  /** The nodes of the run never compact their logs, and until the proposal these are empty. */
  lemma Bases(payload: seq<byte>)
    ensures Asleep(0, 1).raft.log == Asleep(1, 0).raft.log == Candidate0().raft.log == Log([], 0, 0)
    ensures Voter1().raft.log == Leader0().raft.log == Log([], 0, 0)
    ensures Proposer0(payload).raft.log == Holder1(payload).raft.log == Log([Entry(payload)], 0, 0)
    ensures Committer0(payload).raft == Proposer0(payload).raft.(commitIndex := 1, lastApplied := 1,
                                          matchIndex := map[1 := 1], nextIndex := map[1 := 2])
    ensures Proposer0(payload).raft.role == Leader && Holder1(payload).raft.term == Proposer0(payload).raft.term == 1
  {
  }

  /** Any non-empty payload that is not a membership change can be committed, and applied by both nodes. */
  lemma SomeRunApplies(payload: seq<byte>) returns (trace: seq<Cluster>)
    requires payload != [] && !IsConfigEntry(payload)
    ensures Run(trace) && trace[0].nodes.Keys == {0, 1}
    ensures forall i :: 0 <= i < |trace| - 1 ==> PlainNext(trace[i], trace[i + 1], payload)
    ensures var c := trace[|trace| - 1];
            && 0 in c.nodes && c.nodes[0].raft.role == Leader && c.nodes[0].raft.commitIndex == 1
            && c.nodes[0].raft.lastApplied == 1 && c.nodes[0].raft.log == Log([Entry(payload)], 0, 0)
            && 1 in c.nodes && c.nodes[1].raft.commitIndex == c.nodes[1].raft.lastApplied == 1
            && Delivery(0, 1, Entry(payload)) in c.delivered && Delivery(1, 1, Entry(payload)) in c.delivered
  {
    hide Process, Next, Init, Asleep, Candidate0, Voter1, Leader0, Proposer0, Holder1, Committer0, Entry, IsConfigEntry,
         AfterEvent, PlainNext;
    var c0 := Cluster(map[0 := Asleep(0, 1), 1 := Asleep(1, 0)], {}, {});
    StartsAsleep();
    Bases(payload);
    Campaigns();
    var c1 := AfterEvent(c0, 0, Timeout, Quiet);
    OnePlain(c0, 0, Timeout, payload);
    Votes();
    var vote := Receive(RequestVote(1, 0, 0, 0));
    var c2 := AfterEvent(c1, 1, vote, Quiet);
    OnePlain(c1, 1, vote, payload);
    Wins();
    var won := Receive(RequestVoteResp(1, true, 1));
    var c3 := AfterEvent(c2, 0, won, Quiet);
    OnePlain(c2, 0, won, payload);
    Proposes(payload);
    var c4 := AfterEvent(c3, 0, Submit(payload), Quiet);
    OnePlain(c3, 0, Submit(payload), payload);
    Follows(payload);
    var sent := Receive(AppendEntries(1, 0, 0, 0, [Entry(payload)], 0));
    var c5 := AfterEvent(c4, 1, sent, Quiet);
    OnePlain(c4, 1, sent, payload);
    Delivers(payload);
    var acked := Receive(AppendEntriesResp(1, true, 1, 1));
    var c6 := AfterEvent(c5, 0, acked, Quiet);
    OnePlain(c5, 0, acked, payload);
    Beats(payload);
    var c7 := AfterEvent(c6, 0, Tick, Quiet);
    OnePlain(c6, 0, Tick, payload);
    Learns(payload);
    var beat := Receive(AppendEntries(1, 0, 1, 1, [], 1));
    var c8 := AfterEvent(c7, 1, beat, Quiet);
    OnePlain(c7, 1, beat, payload);
    trace := [c0, c1, c2, c3, c4, c5, c6, c7, c8];
    forall i | 0 <= i < |trace| - 1
      ensures Next(trace[i], trace[i + 1])
    {
      PlainIsNext(trace[i], trace[i + 1], payload);
    }
  }
}
