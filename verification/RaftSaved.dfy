/**
 A node saves a received snapshot before it records the message's term and trims its log. What a restart
 makes of the disk when the node stops in between, and exactly when that is the node it had become.
 */
module RaftSaved {
  import opened Basics
  import opened RaftTypes
  import opened RaftLog
  import opened RaftNode
  import opened RaftCluster
  import opened RaftSim
  import opened RaftDurable
  import opened RaftRestart
  import opened RaftTorn

  /** The hard state and the log of `s` are those of `t`. */
  predicate SameDurable(s: NodeState, t: NodeState) {
    s.term == t.term && s.votedFor == t.votedFor && s.log == t.log
  }

  ghost predicate Trims(stored: seq<LogEntry>, l: Log) {
    exists j: nat :: TrimsTo(stored, j, l)
  }

  /** The node once it has adopted the term of the message. */
  function Adopted(s: NodeState, t: Term): NodeState {
    if s.term < t then StepDown(s, t) else s
  }

  ghost predicate RecordsTerm(ops: seq<PersistOp>, k: nat)
    requires k <= |ops|
  {
    exists i :: 0 <= i < k && ops[i].HardState?
  }

  // ---------- the operations before the log operation ----------

  lemma RestPrefix(s: NodeState, d: Disk, k: nat)
    requires WellIndexed(s.log) && DiskRests(s, d) && k <= |s.pending|
    ensures var d' := ApplyOps(d, s.pending[..k]); Trims(d'.log, s.log) && d' == d.(log := d'.log)
  {
    hide Above, SnapshotRests;
    HeldTrims(s.log);
    if k == 1 {
      assert s.pending[..1] == [] + [CompactThrough(s.log.baseIndex)];
      ReplayPush(d, [], CompactThrough(s.log.baseIndex));
    } else {
      assert s.pending[..k] == [];
      assert s.pending == [] ==> Trims(d.log, s.log);
    }
  }

  lemma AdoptedPending(s: NodeState, d: Disk, t: Term)
    requires DiskRests(s, d)
    ensures Adopted(s, t).pending == s.pending + if s.term < t then [HardState(t, None)] else []
    ensures !RecordsTerm(s.pending, |s.pending|)
  {
    hide SnapshotRests, TrimsTo;
    assert s.pending + [] == s.pending;
    if s.pending != [] {
      var op := s.pending[0];
      assert s.pending == [op] && s.pending[1..] == [] && WithoutHardState(s.pending) == [op] + [];
    }
  }

  /** Until the hard state is written the disk keeps the old term; the stored entries trim to the log throughout. */
  lemma AdoptedPrefix(s: NodeState, d: Disk, t: Term, k: nat)
    requires WellIndexed(s.log) && DiskRests(s, d) && k <= |Adopted(s, t).pending|
    ensures var h := Adopted(s, t); var d' := ApplyOps(d, h.pending[..k]);
            && Trims(d'.log, s.log)
            && var x := if RecordsTerm(h.pending, k) then h else s; d'.term == x.term && d'.votedFor == x.votedFor
  {
    hide Trims, TrimsTo, StepDown, SnapshotRests;
    var h := Adopted(s, t);
    AdoptedPending(s, d, t);
    if k <= |s.pending| {
      assert h.pending[..k] == s.pending[..k];
      assert forall i :: 0 <= i < k ==> h.pending[i] == s.pending[i];
      RestPrefix(s, d, k);
    } else {
      assert h.pending[..k] == s.pending + [HardState(t, None)] && s.pending[..|s.pending|] == s.pending;
      assert h.pending[|s.pending|].HardState?;
      ReplayPush(d, s.pending, HardState(t, None));
      RestPrefix(s, d, |s.pending|);
      AdoptedHard(s, t);
    }
  }

  lemma AdoptedHard(s: NodeState, t: Term)
    requires s.term < t
    ensures Adopted(s, t).term == t && Adopted(s, t).votedFor == None
  {
  }

  // ---------- the restart ----------

  lemma RestoreSaved(me: NodeId, peers: seq<NodeId>, noop: bool, d: Disk, l: Log, snap: Snapshot)
    requires Trims(d.log, l) && l.baseIndex < snap.lastIndex
    ensures var r := Restore(me, peers, noop, d.(snapshot := Some(snap)));
            && r.Some? && r.value.term == d.term && r.value.votedFor == d.votedFor
            && r.value.log == Log(Above(l.entries, snap.lastIndex), snap.lastIndex, snap.lastTerm)
  {
    hide Above, CompactTo;
    var li := snap.lastIndex;
    var j: nat :| TrimsTo(d.log, j, l);
    RestoreLog(d.log, j, li, snap.lastTerm);
    AboveContiguous(d.log, j + 1, li);
    AboveAbove(d.log, l.baseIndex, li);
  }

  /** The stored entries give the installed log exactly when it keeps its suffix or ends within the snapshot. */
  lemma InstalledExactly(l: Log, li: nat, lt: Term)
    requires WellIndexed(l) && l.baseIndex < li
    ensures Log(Above(l.entries, li), li, lt) == Install(l, li, lt) <==> KeepsSuffix(l, li, lt) || LastIndex(l) <= li
  {
    hide Above, KeepsSuffix;
    if KeepsSuffix(l, li, lt) || LastIndex(l) <= li {
      InstalledIs(l, li, lt);
    } else {
      AboveContiguous(l.entries, l.baseIndex + 1, li);
      assert Above(l.entries, li) != [];
    }
  }

  lemma InstalledAll(d: Disk, l: Log, li: nat, lt: Term)
    requires Trims(d.log, l) && WellIndexed(l) && l.baseIndex < li
    ensures var op := if KeepsSuffix(l, li, lt) then CompactThrough(li) else TruncateFrom(0);
            ApplyOp(d, op).log == Install(l, li, lt).entries
    ensures WellIndexed(Install(l, li, lt)) && Install(l, li, lt).baseIndex == li && Install(l, li, lt).baseTerm == lt
  {
    hide Above, Below, KeepsSuffix;
    var j: nat :| TrimsTo(d.log, j, l);
    if KeepsSuffix(l, li, lt) {
      AboveAbove(d.log, l.baseIndex, li);
      InstalledIs(l, li, lt);
      AboveContiguous(l.entries, l.baseIndex + 1, li);
    } else {
      BelowContiguous(d.log, j + 1, 0);
    }
  }

  lemma RestoreWhole(me: NodeId, peers: seq<NodeId>, noop: bool, d: Disk, l: Log, snap: Snapshot)
    requires WellIndexed(l) && d.log == l.entries && l.baseIndex == snap.lastIndex && l.baseTerm == snap.lastTerm
    requires 0 < snap.lastIndex
    ensures var r := Restore(me, peers, noop, d.(snapshot := Some(snap)));
            r.Some? && r.value.term == d.term && r.value.votedFor == d.votedFor && r.value.log == l
  {
    hide Above, CompactTo;
    RestoreLog(d.log, l.baseIndex, snap.lastIndex, snap.lastTerm);
    AboveContiguous(d.log, l.baseIndex + 1, l.baseIndex);
  }

  /**
   A node at rest handles a message that installs a snapshot, and stops once the snapshot and the first `k`
   operations are on disk. The restart succeeds. It gives the term, the vote and the log the node had reached if
   and only if the message's term is on disk and the log needs no more trimming than the snapshot itself asks for.
   */
  lemma SavedExactly(node: Node, m: Message, env: Env, k: nat)
    requires WellIndexed(node.raft.log) && DiskRests(node.raft, node.disk) && m.InstallSnapshot?
    requires var r := React(node, Receive(m), env); r.saved.Some? && k <= |r.raft.pending|
    ensures var r := React(node, Receive(m), env);
            var d := DiskAfter(node.disk, r.saved, r.raft.pending[..k]);
            var back := Restore(node.raft.me, node.raft.peers, node.raft.noopOnElect, d);
            back.Some? && (SameDurable(back.value, r.raft) <==> SavedSafely(node.raft, m, r.raft.pending, k))
  {
    hide OnMessage, ApplyOps, Restore, DiskRests, SavedSafely, WellIndexed;
    var s := node.raft;
    var r := React(node, Receive(m), env);
    var progress := if s.term <= m.term && node.transfer then env.progress else 0;
    assert r.raft == OnMessage(s, m, progress).state;
    SavedAt(s, node.disk, m, progress, r.saved.value, k);
  }

  lemma SavedAt(s: NodeState, d0: Disk, m: Message, progress: nat, snap: Snapshot, k: nat)
    requires WellIndexed(s.log) && DiskRests(s, d0) && m.InstallSnapshot? && m.done
    requires snap.lastIndex == m.lastIndex && snap.lastTerm == m.lastTerm
    requires s.log.baseIndex < OnMessage(s, m, progress).state.log.baseIndex
    requires k <= |OnMessage(s, m, progress).state.pending|
    ensures var f := OnMessage(s, m, progress).state;
            var back := Restore(s.me, s.peers, s.noopOnElect, ApplyOps(d0.(snapshot := Some(snap)), f.pending[..k]));
            back.Some? && (SameDurable(back.value, f) <==> SavedSafely(s, m, f.pending, k))
  {
    hide OnMessage, Restore, ApplyOps, ApplyOp, Install, KeepsSuffix, StepDown, DiskRests, WellIndexed, Trims, Above,
         LastIndex;
    var f, h, li, lt := OnMessage(s, m, progress).state, Adopted(s, m.term), m.lastIndex, m.lastTerm;
    InstallRecords(s, m, progress);
    SavedAside(d0, Some(snap), f.pending[..k]);
    InstalledExactly(s.log, li, lt);
    if k == |f.pending| {
      var op := f.pending[k - 1];
      assert f.pending[..k] == h.pending + [op] && h.pending[..|h.pending|] == h.pending;
      ReplayPush(d0, h.pending, op);
      AdoptedPrefix(s, d0, m.term, |h.pending|);
      var d := ApplyOps(d0, h.pending);
      InstalledAll(d, s.log, li, lt);
      LogOperation(d, op);
      RestoreWhole(s.me, s.peers, s.noopOnElect, ApplyOp(d, op), f.log, snap);
      TermRecorded(s, d0, f.pending, op, m.term, k);
    } else {
      assert f.pending[..k] == h.pending[..k];
      AdoptedPrefix(s, d0, m.term, k);
      RestoreSaved(s.me, s.peers, s.noopOnElect, ApplyOps(d0, f.pending[..k]), s.log, snap);
      TermRecorded(s, d0, f.pending, f.pending[|h.pending|], m.term, k);
    }
  }

  lemma LogOperation(d: Disk, op: PersistOp)
    requires op.CompactThrough? || op.TruncateFrom?
    ensures ApplyOp(d, op).term == d.term && ApplyOp(d, op).votedFor == d.votedFor
  {
  }

  /** The term on disk is the message's exactly when it was the node's already or its hard state is written. */
  lemma TermRecorded(s: NodeState, d0: Disk, ops: seq<PersistOp>, op: PersistOp, t: Term, k: nat)
    requires DiskRests(s, d0) && s.term <= t && ops == Adopted(s, t).pending + [op] && !op.HardState? && k <= |ops|
    ensures RecordsTerm(ops, k) <==> RecordsTerm(Adopted(s, t).pending, if k == |ops| then k - 1 else k)
    ensures k == |ops| ==> t == s.term || RecordsTerm(ops, k)
    ensures t == s.term ==> !RecordsTerm(ops, k)
    ensures s.term < t ==> Adopted(s, t).term != s.term
  {
    hide DiskRests, StepDown;
    var h := Adopted(s, t);
    AdoptedPending(s, d0, t);
    if s.term < t { AdoptedHard(s, t); assert k == |ops| ==> ops[|s.pending|].HardState?; }
    assert forall i :: 0 <= i < |h.pending| ==> ops[i] == h.pending[i];
    var j := if k == |ops| then k - 1 else k;
    if i :| 0 <= i < k && ops[i].HardState? { assert i < j && h.pending[i].HardState?; }
    if i :| 0 <= i < j && h.pending[i].HardState? { assert ops[i].HardState?; }
  }

  // ---------- the two ways it goes wrong ----------

  /** The log is not trimmed: the restart brings back an entry the snapshot replaced. */
  lemma StaleSuffixSurvives()
    ensures var held := [LogEntry(1, 1, []), LogEntry(1, 2, [])];
            var back := Restore(0, [1, 2], false, Disk(2, None, held, Some(Snapshot(1, 2, []))));
            && Install(Log(held, 0, 0), 1, 2) == Log([], 1, 2)
            && back.Some? && back.value.log == Log([LogEntry(1, 2, [])], 1, 2)
  {
    var held := [LogEntry(1, 1, []), LogEntry(1, 2, [])];
    assert held[1..] == [LogEntry(1, 2, [])];
  }

  // Node 0 of five leads term 1 and has sent two entries; nodes 1, 3 and 4 have not got them, elect node 1 in term 2
  // and commit its first entry. Node 2 voted in term 1 and has an empty log; node 1 sends it a snapshot of that entry.
  const FOLLOWER := Node(Fresh(2, [0, 1, 3, 4], false).(term := 1, votedFor := Some(0)), Disk(1, Some(0), [], None),
                         false)
  const NEWER := InstallSnapshot(2, 1, 1, 2, 0, true, [])
  const OLDER := AppendEntries(1, 0, 0, 0, [LogEntry(1, 1, [1]), LogEntry(1, 2, [2])], 0)

  lemma SavesSnapshot(env: Env)
    ensures var r := React(FOLLOWER, Receive(NEWER), env);
            && DiskRests(FOLLOWER.raft, FOLLOWER.disk) && r.saved == Some(Snapshot(1, 2, []))
            && r.raft.term == 2 && r.raft.log == Log([], 1, 2) &&
               r.raft.pending == [HardState(2, None), TruncateFrom(0)]
  {
    assert WithoutHardState([]) + [HardState(2, None)] == [HardState(2, None)];
  }

  /**
   The term is not on disk: the follower saves the snapshot and stops. It restarts in term 1 and accepts, past
   the snapshot, an entry that the leader of term 1 sent before it was deposed. In term 2 it had refused it.
   Logs no longer match: it and that leader give index 2 the same term, and index 1 different ones.
   */
  lemma LostTermAccepts(env: Env)
    ensures var r := React(FOLLOWER, Receive(NEWER), env);
            var back := Restore(2, [0, 1, 3, 4], false, DiskAfter(FOLLOWER.disk, r.saved, r.raft.pending[..0]));
            && OnMessage(r.raft, OLDER, 0).state.log == Log([], 1, 2)
            && back.Some? && back.value.term == 1 && back.value.log == Log([], 1, 2) && back.value.commitIndex == 1
            && var held, sent := OnMessage(back.value, OLDER, 0).state.log, Log(OLDER.entries, 0, 0);
               && held == Log([LogEntry(1, 2, [2])], 1, 2)
               && TermAt(held, 2) == TermAt(sent, 2) == Some(1)
               && TermAt(held, 1) == Some(2) && TermAt(sent, 1) == Some(1)
  {
    hide React, TermAt;
    SavesSnapshot(env);
    var r := React(FOLLOWER, Receive(NEWER), env);
    assert r.raft.pending[..0] == [];
    RestartsOld();
    var back := Restore(2, [0, 1, 3, 4], false, Disk(1, Some(0), [], Some(Snapshot(1, 2, []))));
    AcceptsOld(back.value);
    RefusesOld(r.raft);
    TermsDiffer();
  }

  lemma TermsDiffer()
    ensures var held, sent := Log([LogEntry(1, 2, [2])], 1, 2), Log(OLDER.entries, 0, 0);
            TermAt(held, 2) == TermAt(sent, 2) == Some(1) && TermAt(held, 1) == Some(2) && TermAt(sent, 1) == Some(1)
  {
  }

  lemma RestartsOld()
    ensures var back := Restore(2, [0, 1, 3, 4], false, Disk(1, Some(0), [], Some(Snapshot(1, 2, []))));
            && back.Some? && back.value.role == Follower && back.value.term == 1 && !Ignored(back.value, OLDER)
            && back.value.log == Log([], 1, 2) && back.value.commitIndex == 1
  {
  }

  lemma RefusesOld(s: NodeState)
    requires s.term == 2
    ensures OnMessage(s, OLDER, 0).state.log == s.log
  {
    hide Drain, Ignored;
    DrainKeepsLog(HandleAppendEntries(s, OLDER).state);
  }

  lemma AcceptsOld(s: NodeState)
    requires s.role == Follower && s.term == 1 && s.log == Log([], 1, 2) && s.commitIndex == 1 && !Ignored(s, OLDER)
    ensures OnMessage(s, OLDER, 0).state.log == Log([LogEntry(1, 2, [2])], 1, 2)
  {
    hide Drain, Ignored, AppendAt, EntriesFrom;
    AppendsOld();
    DrainKeepsLog(HandleAppendEntries(s, OLDER).state);
  }

  /** The first entry is taken to be covered by the snapshot, and the second is new. */
  lemma AppendsOld()
    ensures AppendAt(Log([], 1, 2), 1, OLDER.entries, 1) == Appended(Log([LogEntry(1, 2, [2])], 1, 2), Some(2))
  {
    assert OLDER.entries[1..] == [LogEntry(1, 2, [2])];
  }
}
