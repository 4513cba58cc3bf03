/**
 The event loop of a running node: it feeds events to the node's state, makes what the state recorded
 durable, and only then sends messages and hands entries over. Each event is proved to be `Process`.
 */
module RaftDriver {
  import opened Basics
  import opened RaftTypes
  import opened RaftNode
  import opened RaftCluster
  import opened RaftStateMachine
  import opened RaftStore

  class Driver {
    const raft: RaftState
    const store: MemStore
    const transfer: bool
    const electionMin: nat
    var leaderContact: Option<nat>

    ghost function Value(): Node
      reads this, raft, raft.log, store
    {
      Node(raft.Value(), store.disk, transfer)
    }

    constructor (raft: RaftState, store: MemStore, transfer: bool, electionMin: nat)
      ensures this.raft == raft && this.store == store && this.transfer == transfer
      ensures this.electionMin == electionMin && leaderContact == None
    {
      this.raft, this.store, this.transfer, this.electionMin, leaderContact := raft, store, transfer, electionMin, None;
    }

    /** A live leader was heard from less than the shortest election timeout ago. */
    predicate HeardLeader(now: nat)
      reads this
    {
      leaderContact.Some? && now < leaderContact.value + electionMin
    }

    /** A node as it comes up on a store: `None` when the store's snapshot and log leave a gap. */
    static method Start(me: NodeId, peers: seq<NodeId>, noopOnElect: bool, store: MemStore, transfer: bool,
                        electionMin: nat)
      returns (d: Option<Driver>)
      ensures match Restore(me, peers, noopOnElect, store.disk)
              case None => d == None
              case Some(s) =>
                d.Some? && d.value.Value() == Node(s, store.disk, transfer) && fresh(d.value) && fresh(d.value.raft)
    {
      hide Restore;
      var raft := new RaftState(me, peers, noopOnElect);
      var ok := raft.RestoreFrom(store.disk);
      if !ok { return None; }
      var driver := new Driver(raft, store, transfer, electionMin);
      d := Some(driver);
    }

    /** Makes the recorded operations durable, then carries out the actions in order. */
    method ApplyAndPersist(actions: seq<Action>, env: Env) returns (sent: set<Packet>, applied: seq<LogEntry>)
      modifies raft, store
      ensures var s := old(raft.Value()); var d := ApplyOps(old(store.disk), s.pending);
              var e := Perform(Effects(s.(pending := []), {}, []), d, transfer, env, actions);
              Value() == Node(e.raft, d, transfer) && sent == e.sent && applied == e.applied
    {
      var ops := raft.TakePersistOps();
      store.Persist(ops);
      sent, applied := {}, [];
      ghost var start := Effects(raft.Value(), {}, []);
      var i := 0;
      assert actions[0..] == actions;
      while i < |actions|
        invariant 0 <= i <= |actions| && store.disk == ApplyOps(old(store.disk), ops)
        invariant Perform(Effects(raft.Value(), sent, applied), store.disk, transfer, env, actions[i..])
               == Perform(start, store.disk, transfer, env, actions)
      {
        assert actions[i..][1..] == actions[i + 1..];
        match actions[i] {
          case SendTo(peer, m) => sent := sent + {Packet(peer, m)};
          case Broadcast(m) => sent := sent + set q | q in raft.peers :: Packet(q, m);
          case ResetElectionTimer =>
          case Apply(entry) => applied := applied + [entry];
          case SendSnapshot(peer) =>
            var m := SendSnapshotTo(peer, env);
            if m.Some? { sent := sent + {Packet(peer, m.value)}; }
        }
        i := i + 1;
      }
      assert actions[i..] == [];
    }

    /** The message that carries the snapshot, or its next part, to `peer`. */
    method SendSnapshotTo(peer: NodeId, env: Env) returns (m: Option<Message>)
      modifies raft
      ensures match store.disk.snapshot
              case None =>
                m == None &&
                raft.Value() == old(raft.Value()).(nextIndex := old(raft.nextIndex)[peer := raft.log.baseIndex + 1])
              case Some(snap) =>
                m == SnapshotMessage(raft.Value(), snap, transfer, peer, env) && raft.Value() == old(raft.Value())
    {
      if store.disk.snapshot.None? {
        raft.nextIndex := raft.nextIndex[peer := raft.log.baseIndex + 1];
        return None;
      }
      var snap := store.disk.snapshot.value;
      if !transfer {
        m := Some(InstallSnapshot(raft.term, raft.me, snap.lastIndex, snap.lastTerm, 0, true, snap.data));
      } else if peer !in raft.snapshotCursor {
        m := Some(InstallSnapshot(raft.term, raft.me, snap.lastIndex, snap.lastTerm, PROBE_OFFSET, false, []));
      } else if peer in env.chunks {
        m := Some(InstallSnapshot(raft.term, raft.me, snap.lastIndex, snap.lastTerm, raft.snapshotCursor[peer],
                                  env.chunks[peer].done, env.chunks[peer].data));
      } else {
        m := None;
      }
    }

    /** A vote request is dropped while a live leader was just heard from; anything else is processed. */
    method OnMessage(m: Message, env: Env, now: nat) returns (sent: set<Packet>, applied: seq<LogEntry>)
      modifies this, raft, raft.log, store
      ensures if m.RequestVote? && old(HeardLeader(now)) then Value() == old(Value()) && sent == {} && applied == []
              else var (node, e) := Process(old(Value()), Receive(m), env);
                   Value() == node && sent == e.sent && applied == e.applied
      ensures leaderContact ==
                if (m.AppendEntries? || m.InstallSnapshot?) && old(raft.term) <= m.term then Some(now)
                else old(leaderContact)
    {
      hide Perform, RaftNode.OnMessage, ApplyOps;
      if m.RequestVote? && HeardLeader(now) {
        return {}, [];
      }
      if (m.AppendEntries? || m.InstallSnapshot?) && raft.term <= m.term {
        leaderContact := Some(now);
      }
      if !m.InstallSnapshot? {
        var actions := raft.Receive(m, 0);
        sent, applied := ApplyAndPersist(actions, env);
        return;
      }
      var current := raft.term <= m.term && transfer;
      var progress := if current then env.progress else 0;
      if current && !IsProbe(m) && !env.chunkApplied {
        var resp := InstallSnapshotResp(raft.term, false, raft.me, progress, 0);
        OneMessage(Effects(raft.Value(), {}, []), store.disk, transfer, env, m.leader, resp);
        return {Packet(m.leader, resp)}, [];
      }
      var snap := Snapshot(m.lastIndex, m.lastTerm, if transfer then env.stateData else m.data);
      var before := raft.log.baseIndex;
      var actions := raft.Receive(m, progress);
      if m.done && before < raft.log.baseIndex {
        store.SaveSnapshot(snap);
      }
      sent, applied := ApplyAndPersist(actions, env);
    }

    method OnTimeout(env: Env) returns (sent: set<Packet>, applied: seq<LogEntry>)
      modifies raft, raft.log, store
      ensures var (node, e) := Process(old(Value()), Timeout, env);
              Value() == node && sent == e.sent && applied == e.applied
    {
      hide Perform, ElectionTimeout, ApplyOps;
      var actions := raft.OnElectionTimeout();
      sent, applied := ApplyAndPersist(actions, env);
    }

    method OnTick(env: Env) returns (sent: set<Packet>, applied: seq<LogEntry>)
      modifies raft, raft.log, store
      ensures var (node, e) := Process(old(Value()), Tick, env);
              Value() == node && sent == e.sent && applied == e.applied
    {
      hide Perform, HeartbeatTick, ApplyOps;
      var actions := raft.OnHeartbeatTick();
      sent, applied := ApplyAndPersist(actions, env);
    }

    method OnPropose(payload: seq<byte>, env: Env)
      returns (outcome: ProposeOutcome, sent: set<Packet>, applied: seq<LogEntry>)
      modifies raft, raft.log, store
      ensures outcome == Propose(old(raft.Value()), payload).0
      ensures var (node, e) := Process(old(Value()), Submit(payload), env);
              Value() == node && sent == e.sent && applied == e.applied
    {
      hide Perform, Propose, HeartbeatTick, ApplyOps;
      var actions;
      outcome, actions := raft.TryPropose(payload);
      if outcome.Accepted? {
        var beat := raft.OnHeartbeatTick();
        actions := actions + beat;
      } else {
        assert actions + [] == actions;
      }
      sent, applied := ApplyAndPersist(actions, env);
    }

    /** Saves the snapshot first, then the compaction it allows. */
    method TakeSnapshotNow(data: seq<byte>, through: Option<LogIndex>, env: Env) returns (snap: Option<Snapshot>)
      modifies raft, raft.log, store
      ensures var (node, e) := Process(old(Value()), SnapshotRequest(data, through), env);
              Value() == node && e.sent == {} && e.applied == []
      ensures match TakeSnapshot(old(raft.Value()), data, through)
              case None => snap == None
              case Some(r) => snap == Some(r.1)
    {
      hide TakeSnapshot, ApplyOps;
      snap := raft.Snapshot(data, through);
      if snap.Some? {
        var ops := raft.TakePersistOps();
        store.SaveSnapshot(snap.value);
        store.Persist(ops);
      } else {
        NoOps(store.disk);
      }
    }
  }

  lemma OneMessage(e: Effects, d: Disk, transfer: bool, env: Env, peer: NodeId, m: Message)
    ensures Perform(e, d, transfer, env, [SendTo(peer, m)]) == e.(sent := e.sent + {Packet(peer, m)})
    ensures ApplyOps(d, []) == d
  {
    assert [SendTo(peer, m)][1..] == [];
  }
}
