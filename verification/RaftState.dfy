/**
 The Raft node as the broker runs it: one object whose handlers update its fields step by step. Each
 handler is proved to take the node from its old value to the value `RaftNode` prescribes.
 */
module RaftStateMachine {
  import opened Basics
  import opened RaftTypes
  import opened RaftLog
  import opened RaftNode

  class RaftState {
    const me: NodeId
    const peers: seq<NodeId>
    const log: MutableLog
    var role: Role
    var term: Term
    var votedFor: Option<NodeId>
    var leaderHint: Option<NodeId>
    var commitIndex: LogIndex
    var lastApplied: LogIndex
    var matchIndex: map<NodeId, LogIndex>
    var nextIndex: map<NodeId, LogIndex>
    var snapshotCursor: map<NodeId, nat>
    var noopOnElect: bool
    var votes: set<NodeId>
    var pending: seq<PersistOp>

    ghost function Value(): NodeState
      reads this, log
    {
      NodeState(me, peers, role, term, votedFor, leaderHint, log.Value(), commitIndex, lastApplied,
                matchIndex, nextIndex, snapshotCursor, noopOnElect, votes, pending)
    }

    constructor (me: NodeId, peers: seq<NodeId>, noopOnElect: bool)
      ensures Value() == Fresh(me, peers, noopOnElect)
      ensures fresh(log)
    {
      this.me, this.peers, this.noopOnElect := me, peers, noopOnElect;
      log := new MutableLog(Log([], 0, 0));
      role, term, votedFor, leaderHint := Follower, 0, None, None;
      commitIndex, lastApplied := 0, 0;
      matchIndex, nextIndex, snapshotCursor := map[], map[], map[];
      votes, pending := {}, [];
    }

    /** Drains the persistence work recorded since the last call. */
    method TakePersistOps() returns (ops: seq<PersistOp>)
      modifies this
      ensures ops == old(pending)
      ensures Value() == old(Value()).(pending := [])
    {
      ops := pending;
      pending := [];
    }

    method PersistHardState()
      modifies this
      ensures Value() == PersistHard(old(Value()))
    {
      var kept, i := [], 0;
      while i < |pending|
        invariant 0 <= i <= |pending|
        invariant pending == old(pending) && Value() == old(Value())
        invariant kept + WithoutHardState(pending[i..]) == WithoutHardState(pending)
      {
        if !pending[i].HardState? {
          kept := kept + [pending[i]];
        }
        i := i + 1;
      }
      pending := kept + [HardState(term, votedFor)];
    }

    method AppendEntry(payload: seq<byte>) returns (index: LogIndex)
      modifies this, log
      ensures index == LastIndex(old(log.Value())) + 1
      ensures Value() == AppendLocal(old(Value()), payload)
    {
      index := LastIndex(log.Value()) + 1;
      var e := LogEntry(term, index, payload);
      pending := pending + [Append([e])];
      log.entries := log.entries + [e];
    }

    method StepDownTo(t: Term)
      modifies this
      ensures Value() == StepDown(old(Value()), t)
    {
      var changed := false;
      if term < t {
        term := t;
        changed := true;
      }
      if votedFor.Some? {
        votedFor := None;
        changed := true;
      }
      if changed {
        PersistHardState();
      }
      ForgetLeadership();
    }

    method ForgetLeadership()
      modifies this
      ensures Value() == Forget(old(Value()))
    {
      role, votes, leaderHint := Follower, {}, None;
      matchIndex, nextIndex, snapshotCursor := map[], map[], map[];
    }

    method FollowLeader(t: Term, leader: NodeId)
      modifies this
      ensures Value() == Follow(old(Value()), t, leader)
    {
      if term < t {
        term, votedFor := t, None;
        PersistHardState();
      }
      role, leaderHint := Follower, Some(leader);
    }

    /** Sorts what the members hold and commits what a majority holds, if it is of this term. */
    method RecomputeCommitIndex()
      modifies this
      ensures Value() == Recompute(old(Value()))
    {
      var indices, i := [], 0;
      while i < |peers|
        invariant 0 <= i <= |peers| && Value() == old(Value())
        invariant indices == Replicated(Value())[..i]
      {
        indices := indices + [At(matchIndex, peers[i], 0)];
        i := i + 1;
      }
      indices := indices + [LastIndex(log.Value())];
      var sorted := SortIndices(indices);
      var candidate := sorted[|indices| - QuorumSize(peers)];
      if commitIndex < candidate {
        if TermAt(log.Value(), candidate) == Some(term) {
          commitIndex := candidate;
        }
      }
    }

    method DrainApply() returns (out: seq<Action>)
      modifies this
      ensures Step(Value(), out) == Drain(old(Value()))
    {
      hide Get, DrainFrom;
      out := [];
      var from := lastApplied;
      while lastApplied < commitIndex
        invariant from <= lastApplied && (lastApplied <= commitIndex || lastApplied == from)
        invariant Value() == old(Value()).(lastApplied := lastApplied)
        invariant out + DrainFrom(log.Value(), lastApplied, commitIndex) == DrainFrom(log.Value(), from, commitIndex)
      {
        DrainStep(log.Value(), lastApplied, commitIndex);
        lastApplied := lastApplied + 1;
        var e := Get(log.Value(), lastApplied);
        if e.Some? && e.value.payload != [] {
          out := out + [Apply(e.value)];
        }
      }
      DrainNone(log.Value(), lastApplied, commitIndex);
    }

    method BuildAppendFor(peer: NodeId) returns (m: Message)
      ensures m == BuildAppend(Value(), peer)
    {
      var next := At(nextIndex, peer, 1);
      var prev := if next == 0 then 0 else next - 1;
      var t := TermAt(log.Value(), prev);
      var prevTerm := if t.Some? then t.value else 0;
      var es := log.Bounded(next, MAX_APPEND_ENTRIES, MAX_APPEND_BYTES);
      m := AppendEntries(term, me, prev, prevTerm, es, commitIndex);
    }

    method Replicate(peer: NodeId) returns (a: Action)
      ensures a == ReplicateTo(Value(), peer)
    {
      if At(nextIndex, peer, 1) <= log.baseIndex {
        a := SendSnapshot(peer);
      } else {
        var m := BuildAppendFor(peer);
        a := SendTo(peer, m);
      }
    }

    method OnHeartbeatTick() returns (out: seq<Action>)
      ensures out == HeartbeatTick(Value())
    {
      hide ReplicateTo;
      out := [];
      if role != Leader {
        return;
      }
      var i := 0;
      while i < |peers|
        invariant 0 <= i <= |peers| && out == HeartbeatTick(Value())[..i]
      {
        var a := Replicate(peers[i]);
        out := out + [a];
        i := i + 1;
      }
    }

    method ClaimLeadership()
      modifies this, log
      ensures Value() == Claim(old(Value()))
    {
      role, leaderHint := Leader, Some(me);
      matchIndex, nextIndex, snapshotCursor := map[], map[], map[];
      if noopOnElect {
        var _ := AppendEntry([]);
      }
    }

    method Track()
      modifies this
      ensures Value() == TrackPeers(old(Value()))
    {
      var last := LastIndex(log.Value());
      matchIndex := map p | p in peers :: 0;
      nextIndex := map p | p in peers :: last + 1;
      votes := {};
    }

    method Lead()
      modifies this, log
      ensures Value() == BecomeLeader(old(Value()))
    {
      ClaimLeadership();
      Track();
      RecomputeCommitIndex();
    }

    method OnElectionTimeout() returns (out: seq<Action>)
      modifies this, log
      ensures Step(Value(), out) == ElectionTimeout(old(Value()))
    {
      if role == Leader {
        return [];
      }
      term, role, votedFor := term + 1, Candidate, Some(me);
      votes, leaderHint := {me}, None;
      PersistHardState();
      assert Value() == Campaign(old(Value()));
      if peers == [] {
        Lead();
        out := OnHeartbeatTick();
        var applies := DrainApply();
        out := out + applies;
        return;
      }
      var rv := RequestVote(term, me, LastIndex(log.Value()), LastTerm(log.Value()));
      out := [ResetElectionTimer, Broadcast(rv)];
    }

    method OnRequestVote(m: Message) returns (out: seq<Action>)
      requires m.RequestVote?
      modifies this
      ensures Step(Value(), out) == HandleRequestVote(old(Value()), m)
    {
      var grant := false;
      if term <= m.term {
        var lastTerm, lastIndex := LastTerm(log.Value()), LastIndex(log.Value());
        var upToDate := lastTerm < m.lastLogTerm || (m.lastLogTerm == lastTerm && lastIndex <= m.lastLogIndex);
        if upToDate && (votedFor == None || votedFor == Some(m.candidate)) {
          grant := true;
          if votedFor != Some(m.candidate) {
            votedFor := Some(m.candidate);
            PersistHardState();
          }
        }
      }
      out := [SendTo(m.candidate, RequestVoteResp(term, grant, me))];
      if grant {
        out := out + [ResetElectionTimer];
      }
    }

    method OnRequestVoteResp(m: Message) returns (out: seq<Action>)
      requires m.RequestVoteResp?
      modifies this, log
      ensures Step(Value(), out) == HandleRequestVoteResp(old(Value()), m)
    {
      out := [];
      if role != Candidate || m.term != term {
        return;
      }
      if m.granted {
        votes := votes + {m.voter};
        if QuorumSize(peers) <= |votes| {
          Lead();
          out := OnHeartbeatTick();
        }
      }
    }

    /** The log part of an AppendEntries; false, with nothing changed, when it is rejected. */
    method TakeEntries(m: Message) returns (ok: bool)
      requires m.AppendEntries?
      modifies this, log
      ensures AcceptEntries(old(Value()), m) == if ok then Some(Value()) else None
      ensures !ok ==> Value() == old(Value())
    {
      hide AppendAt, EntriesFrom, TermAt;
      var consistent := m.prevLogIndex == 0 || m.prevLogIndex < log.baseIndex
                        || TermAt(log.Value(), m.prevLogIndex) == Some(m.prevLogTerm);
      if !consistent {
        return false;
      }
      if m.entries != [] {
        var changed;
        ok, changed := log.Append(m.prevLogIndex + 1, m.entries, commitIndex);
        if !ok {
          return;
        }
        if changed.Some? {
          pending := pending + [TruncateFrom(changed.value), Append(EntriesFrom(log.Value(), changed.value))];
        }
      }
      commitIndex := Max(commitIndex, Min(m.leaderCommit, m.prevLogIndex + |m.entries|));
      ok := true;
    }

    method OnAppendEntries(m: Message) returns (out: seq<Action>)
      requires m.AppendEntries?
      modifies this, log
      ensures Step(Value(), out) == HandleAppendEntries(old(Value()), m)
    {
      if m.term < term {
        return [SendTo(m.leader, AppendEntriesResp(term, false, me, 0))];
      }
      FollowLeader(m.term, m.leader);
      var success := TakeEntries(m);
      var matched := if success then m.prevLogIndex + |m.entries| else LastIndex(log.Value());
      out := [SendTo(m.leader, AppendEntriesResp(term, success, me, matched)), ResetElectionTimer];
    }

    method RecordMatch(peer: NodeId, reported: LogIndex) returns (mi: LogIndex)
      modifies this
      ensures mi == Matched(old(Value()), peer, reported)
      ensures Value() == NoteMatch(old(Value()), peer, reported)
    {
      mi := Min(reported, LastIndex(log.Value()));
      var cur := At(matchIndex, peer, 0);
      if cur < mi {
        matchIndex := matchIndex[peer := mi];
      }
      mi := Max(mi, cur);
      nextIndex := nextIndex[peer := mi + 1];
    }

    method OnAppendEntriesResp(m: Message) returns (out: seq<Action>)
      requires m.AppendEntriesResp?
      modifies this
      ensures Step(Value(), out) == HandleAppendEntriesResp(old(Value()), m)
    {
      if role != Leader || m.term != term {
        return [];
      }
      if m.success {
        var mi := RecordMatch(m.responder, m.matchIndex);
        RecomputeCommitIndex();
        if mi < LastIndex(log.Value()) {
          var a := Replicate(m.responder);
          return [a];
        }
        return [];
      }
      var cur := At(nextIndex, m.responder, 1);
      var back := if cur == 0 then 0 else cur - 1;
      nextIndex := nextIndex[m.responder := Max(Min(back, m.matchIndex + 1), 1)];
      var a := Replicate(m.responder);
      out := [a];
    }

    method FinishInstall(m: Message)
      requires m.InstallSnapshot?
      modifies this, log
      ensures Value() == InstallDone(old(Value()), m)
    {
      if log.baseIndex < m.lastIndex {
        var kept := log.InstallSnapshot(m.lastIndex, m.lastTerm);
        pending := pending + [if kept then CompactThrough(m.lastIndex) else TruncateFrom(0)];
      }
      commitIndex := Max(commitIndex, m.lastIndex);
      lastApplied := Max(lastApplied, m.lastIndex);
    }

    method OnInstallSnapshot(m: Message, progress: nat) returns (out: seq<Action>)
      requires m.InstallSnapshot?
      modifies this, log
      ensures Step(Value(), out) == HandleInstallSnapshot(old(Value()), m, progress)
    {
      if m.term < term {
        return [SendTo(m.leader, InstallSnapshotResp(term, false, me, progress, 0))];
      }
      FollowLeader(m.term, m.leader);
      var installed := 0;
      if m.done {
        FinishInstall(m);
        installed := Max(m.lastIndex, log.baseIndex);
      }
      out := [SendTo(m.leader, InstallSnapshotResp(term, true, me, progress, installed)), ResetElectionTimer];
    }

    method OnInstallSnapshotResp(m: Message) returns (out: seq<Action>)
      requires m.InstallSnapshotResp?
      modifies this
      ensures Step(Value(), out) == HandleInstallSnapshotResp(old(Value()), m)
    {
      if role != Leader || m.term != term {
        return [];
      }
      if !m.success {
        return [];
      }
      if 0 < m.installedIndex {
        var mi := Max(At(matchIndex, m.responder, 0), Min(m.installedIndex, LastIndex(log.Value())));
        matchIndex := matchIndex[m.responder := mi];
        nextIndex := nextIndex[m.responder := mi + 1];
        snapshotCursor := snapshotCursor - {m.responder};
        RecomputeCommitIndex();
        if mi < LastIndex(log.Value()) || mi < log.baseIndex {
          var a := Replicate(m.responder);
          return [a];
        }
        return [];
      }
      snapshotCursor := snapshotCursor[m.responder := m.nextOffset];
      out := [SendSnapshot(m.responder)];
    }

    method Handle(m: Message, progress: nat) returns (out: seq<Action>)
      modifies this, log
      ensures Step(Value(), out) == Dispatch(old(Value()), m, progress)
    {
      match m {
        case RequestVote(_, _, _, _) => out := OnRequestVote(m);
        case RequestVoteResp(_, _, _) => out := OnRequestVoteResp(m);
        case AppendEntries(_, _, _, _, _, _) => out := OnAppendEntries(m);
        case AppendEntriesResp(_, _, _, _) => out := OnAppendEntriesResp(m);
        case InstallSnapshot(_, _, _, _, _, _, _) => out := OnInstallSnapshot(m, progress);
        case InstallSnapshotResp(_, _, _, _, _) => out := OnInstallSnapshotResp(m);
      }
    }

    method Receive(m: Message, progress: nat) returns (out: seq<Action>)
      modifies this, log
      ensures Step(Value(), out) == OnMessage(old(Value()), m, progress)
    {
      if m.Sender() !in peers || term + MAX_TERM_JUMP < m.term || m.term == MAX_TERM {
        return [];
      }
      var steppedDown := false;
      if term < m.term {
        StepDownTo(m.term);
        steppedDown := true;
      }
      out := Handle(m, progress);
      if steppedDown && ResetElectionTimer !in out {
        out := [ResetElectionTimer] + out;
      }
      var applies := DrainApply();
      out := out + applies;
    }

    method TryPropose(payload: seq<byte>) returns (outcome: ProposeOutcome, out: seq<Action>)
      modifies this, log
      ensures (outcome, Step(Value(), out)) == Propose(old(Value()), payload)
    {
      if role != Leader {
        return NotLeader(leaderHint), [];
      }
      var index := AppendEntry(payload);
      RecomputeCommitIndex();
      out := DrainApply();
      outcome := Accepted(index);
    }

    /** `None` when there is nothing to snapshot; then nothing changes. */
    method Snapshot(data: seq<byte>, through: Option<LogIndex>) returns (snap: Option<RaftTypes.Snapshot>)
      modifies this, log
      ensures match TakeSnapshot(old(Value()), data, through)
              case None => snap == None && Value() == old(Value())
              case Some(r) => snap == Some(r.1) && Value() == r.0
    {
      var cut := Min(if through.Some? then through.value else lastApplied, lastApplied);
      if cut == 0 || cut <= log.baseIndex {
        return None;
      }
      var t := TermAt(log.Value(), cut);
      if t.None? {
        return None;
      }
      log.CompactThrough(cut, t.value);
      pending := pending + [CompactThrough(cut)];
      snap := Some(RaftTypes.Snapshot(cut, t.value, data));
    }

    method LoadSnapshot(snap: RaftTypes.Snapshot)
      modifies this, log
      ensures Value() == Rebase(old(Value()), snap)
    {
      if log.entries != [] && log.entries[0].index <= snap.lastIndex {
        pending := pending + [CompactThrough(snap.lastIndex)];
      }
      log.CompactThrough(snap.lastIndex, snap.lastTerm);
      log.baseIndex, log.baseTerm := snap.lastIndex, snap.lastTerm;
      commitIndex := Max(commitIndex, snap.lastIndex);
      lastApplied := Max(lastApplied, snap.lastIndex);
    }

    /** Loads persisted state into a fresh node; false when entries are missing. */
    method RestoreFrom(d: Disk) returns (ok: bool)
      requires Value() == Fresh(me, peers, noopOnElect)
      modifies this, log
      ensures match Restore(me, peers, old(noopOnElect), d)
              case None => !ok
              case Some(s) => ok && Value() == s
    {
      term, votedFor := d.term, d.votedFor;
      log.entries, log.baseIndex, log.baseTerm := d.log, 0, 0;
      if d.snapshot.Some? {
        LoadSnapshot(d.snapshot.value);
      }
      ok := log.entries == [] || log.entries[0].index == log.baseIndex + 1;
    }
  }

  method Insert(x: nat, s: seq<nat>) returns (r: seq<nat>)
    ensures r == InsertSorted(x, s)
  {
    var j := 0;
    while j < |s| && s[j] < x
      invariant 0 <= j <= |s|
      invariant InsertSorted(x, s) == s[..j] + InsertSorted(x, s[j..])
    {
      assert s[j..][1..] == s[j + 1..] && s[..j + 1] == s[..j] + [s[j]];
      j := j + 1;
    }
    r := s[..j] + [x] + s[j..];
  }

  /** Insertion sort of a copy, proved equal to `Sorted`. */
  method SortIndices(s: seq<nat>) returns (r: seq<nat>)
    ensures r == Sorted(s)
  {
    hide InsertSorted;
    r := [];
    var i := |s|;
    assert s[i..] == [];
    while 0 < i
      invariant 0 <= i <= |s| && r == Sorted(s[i..])
    {
      i := i - 1;
      assert s[i..][1..] == s[i + 1..];
      r := Insert(s[i], r);
    }
    assert s[0..] == s;
  }
}
