/** Disks a crash can leave behind, and the node that restarts from them. */
module RaftRestart {
  import opened Basics
  import opened RaftTypes
  import opened RaftLog
  import opened RaftNode
  import opened RaftCluster
  import opened RaftSim
  import opened RaftDurable
  import P = RaftProtocol

  /** The disk holds entries from `j + 1` on that are the history's past the snapshot, which leaves no gap. */
  ghost predicate DiskFrom(d: Disk, full: seq<LogEntry>, j: nat) {
    && Contiguous(d.log, j + 1)
    && match d.snapshot
       case None => j == 0 && d.log == full
       case Some(x) =>
         && 0 < x.lastIndex <= |full| && j <= x.lastIndex && x.lastTerm == full[x.lastIndex - 1].term
         && Above(d.log, x.lastIndex) == full[x.lastIndex..]
  }

  /** Disk `d` is a faithful disk for node `n`. */
  ghost predicate DiskFor(p: P.Proto, n: NodeId, d: Disk) {
    && n in p.term && n in p.full && n in p.members
    && d.term == p.term[n] && VoteOk(p, n, d.term, d.votedFor)
    && Indexed(p.full[n])
    && (exists j: nat :: DiskFrom(d, p.full[n], j))
    && (d.snapshot.Some? ==> CommitKnown(p, p.full[n], d.snapshot.value.lastIndex, d.term))
  }

  /** A restart succeeds and leaves the node where its disk says. */
  lemma RestoreOk(p: P.Proto, n: NodeId, peers: seq<NodeId>, noop: bool, d: Disk)
    requires DiskFor(p, n, d) && PeersOf(peers, p.members, n)
    ensures Restore(n, peers, noop, d).Some?
    ensures NodeOk(p, n, Restore(n, peers, noop, d).value)
    ensures DiskRests(Restore(n, peers, noop, d).value, d)
  {
    hide PeersOf, Restore, CommitKnown, Above;
    var full := p.full[n];
    var j: nat :| DiskFrom(d, full, j);
    RestoreIs(n, peers, noop, d, full, j);
    if d.snapshot.Some? { RestoredRests(d.log, j, d.snapshot.value.lastIndex, d.snapshot.value.lastTerm); }
    assert CommitKnown(p, full, 0, d.term) by { NothingCommitted(p, full, d.term); }
  }

  /** A restarted node trims its stored log, unless it has nothing to trim. */
  lemma RestoredRests(stored: seq<LogEntry>, j: nat, li: nat, lt: Term)
    requires Contiguous(stored, j + 1) && j <= li
    ensures TrimsTo(stored, j, Log(Above(stored, li), li, lt))
    ensures stored == [] || j == li ==> Above(stored, li) == stored
  {
    AboveContiguous(stored, j + 1, li);
  }

  lemma NothingCommitted(p: P.Proto, full: seq<LogEntry>, t: Term)
    ensures CommitKnown(p, full, 0, t)
  {
  }

  function Restored(n: NodeId, peers: seq<NodeId>, noop: bool, d: Disk, full: seq<LogEntry>, li: nat, lt: Term,
                    trims: bool): NodeState
    requires li <= |full|
  {
    Fresh(n, peers, noop).(term := d.term, votedFor := d.votedFor, log := Log(full[li..], li, lt),
                           commitIndex := li, lastApplied := li, pending := if trims then [CompactThrough(li)] else [])
  }

  lemma RestoreIs(n: NodeId, peers: seq<NodeId>, noop: bool, d: Disk, full: seq<LogEntry>, j: nat)
    requires DiskFrom(d, full, j) && Indexed(full)
    ensures Restore(n, peers, noop, d) ==
            match d.snapshot
            case None => Some(Restored(n, peers, noop, d, full, 0, 0, false))
            case Some(x) =>
              Some(Restored(n, peers, noop, d, full, x.lastIndex, x.lastTerm, d.log != [] && j < x.lastIndex))
  {
    hide CompactTo, Above;
    assert full[0..] == full;
    if d.snapshot.Some? {
      var x := d.snapshot.value;
      RestoreLog(d.log, j, x.lastIndex, x.lastTerm);
      assert full[x.lastIndex..] != [] ==> full[x.lastIndex..][0].index == x.lastIndex + 1;
      assert d.log != [] ==> d.log[0].index == j + 1;
      var none := Fresh(n, peers, noop).pending;
      assert none + [CompactThrough(x.lastIndex)] == [CompactThrough(x.lastIndex)] && none + [] == none;
    }
  }

  lemma RestoreLog(stored: seq<LogEntry>, j: nat, li: nat, lt: Term)
    requires Contiguous(stored, j + 1) && j <= li && 0 < li
    ensures CompactTo(Log(stored, 0, 0), li, lt) == Log(Above(stored, li), li, lt)
  {
    AboveContiguous(stored, j + 1, li);
  }

  // ---------- disks of nodes ----------

  /** A disk that mirrors a tied node is faithful. */
  lemma MirrorDiskFor(p: P.Proto, n: NodeId, s: NodeState, d: Disk)
    requires NodeOk(p, n, s) && SnapshotRests(s.log, d.snapshot)
    requires d.term == s.term && d.votedFor == s.votedFor && d.log == s.log.entries
    ensures DiskFor(p, n, d)
  {
    hide PeersOf, CommitKnown, LeaderOk, CandidateOk, Above;
    HeldFrom(s.log, d, p.full[n]);
    CommitKnownLess(p, p.full[n], s.commitIndex, s.log.baseIndex, s.term);
  }

  lemma HeldFrom(l: Log, d: Disk, full: seq<LogEntry>)
    requires Represents(l, full) && SnapshotRests(l, d.snapshot) && d.log == l.entries
    ensures DiskFrom(d, full, l.baseIndex)
  {
    hide Above;
    AboveContiguous(d.log, l.baseIndex + 1, l.baseIndex);
    assert full[0..] == full;
  }

  lemma TrimmedFrom(l: Log, d: Disk, full: seq<LogEntry>, j: nat)
    requires Represents(l, full) && SnapshotRests(l, d.snapshot) && TrimsTo(d.log, j, l)
    ensures DiskFrom(d, full, j)
  {
    hide Above;
    if d.snapshot.None? {
      AboveContiguous(d.log, 1, 0);
      assert full[0..] == full && d.log[0..] == d.log;
    }
  }

  lemma RestDiskFor(p: P.Proto, n: NodeId, s: NodeState, d: Disk)
    requires NodeOk(p, n, s) && DiskRests(s, d)
    ensures DiskFor(p, n, d)
  {
    hide PeersOf, CommitKnown, LeaderOk, CandidateOk, Above;
    CommitKnownLess(p, p.full[n], s.commitIndex, s.log.baseIndex, s.term);
    if s.pending == [] {
      HeldFrom(s.log, d, p.full[n]);
    } else {
      var j: nat :| TrimsTo(d.log, j, s.log);
      TrimmedFrom(s.log, d, p.full[n], j);
    }
  }

  /** At rest the pending operations, if any, bring the disk to the node's state. */
  lemma RestMirrors(s: NodeState, d: Disk, full: seq<LogEntry>)
    requires Represents(s.log, full) && DiskRests(s, d)
    ensures Mirror(s, d) && WellIndexed(s.log)
  {
    hide Above;
    if s.pending != [] {
      assert s.pending == [] + [CompactThrough(s.log.baseIndex)];
      ReplayPush(d, [], CompactThrough(s.log.baseIndex));
    }
  }

  lemma TrimmedLog(full: seq<LogEntry>, j: nat, b: nat)
    requires Indexed(full) && j <= b <= |full|
    ensures Above(full[j..], b) == full[b..]
  {
    hide Above;
    assert Contiguous(full[j..], j + 1);
    AboveContiguous(full[j..], j + 1, b);
    assert full[j..][b - j..] == full[b..];
  }

  /** Trimming twice is trimming once, further. */
  lemma {:induction false} AboveAbove(es: seq<LogEntry>, a: nat, b: nat)
    requires a <= b
    ensures Above(Above(es, a), b) == Above(es, b)
  {
    if es != [] {
      AboveAbove(es[1..], a, b);
      var rest := Above(es[1..], a);
      if a < es[0].index {
        assert ([es[0]] + rest)[0] == es[0] && ([es[0]] + rest)[1..] == rest;
      } else {
        assert [] + rest == rest;
      }
    }
  }

  lemma MirrorOnDisk(p: P.Proto, n: NodeId, s: NodeState, d0: Disk)
    requires NodeOk(p, n, s) && Mirror(s, d0) && SnapshotRests(s.log, d0.snapshot)
    ensures DiskFor(p, n, ApplyOps(d0, s.pending))
  {
    hide NodeOk;
    MirrorDiskFor(p, n, s, ApplyOps(d0, s.pending));
  }

  // ---------- torn writes ----------

  ghost predicate NoAppend(ops: seq<PersistOp>) {
    forall k :: 0 <= k < |ops| ==> !ops[k].Append?
  }

  lemma {:induction false} HardStateless(ops: seq<PersistOp>)
    requires NoAppend(ops)
    ensures NoAppend(WithoutHardState(ops))
    decreases |ops|
  {
    if ops != [] {
      assert NoAppend(ops[1..]);
      HardStateless(ops[1..]);
    }
  }

  lemma HardAppendless(s: NodeState)
    requires NoAppend(s.pending)
    ensures NoAppend(PersistHard(s).pending)
  {
    HardStateless(s.pending);
  }

  lemma StepDownAppendless(s: NodeState, t: Term)
    requires NoAppend(s.pending)
    ensures NoAppend(StepDown(s, t).pending)
  {
    HardAppendless(s.(term := Max(s.term, t), votedFor := None));
  }

  lemma TornPlain(ops: seq<PersistOp>, k: nat, m: nat)
    requires k <= |ops| && NoAppend(ops)
    ensures Torn(ops, k, m) == ops[..k]
  {
  }

  /** With one append at the end: a prefix of what comes before it, or all of that and part of the append. */
  lemma TornAppend(ops: seq<PersistOp>, es: seq<LogEntry>, k: nat, m: nat)
    requires k <= |ops| + 1 && NoAppend(ops)
    ensures k < |ops| ==> Torn(ops + [Append(es)], k, m) == ops[..k]
    ensures |ops| <= k ==> (Torn(ops + [Append(es)], k, m) == ops
              || exists i: nat :: i <= |es| && Torn(ops + [Append(es)], k, m) == ops + [Append(es[..i])])
  {
    var all := ops + [Append(es)];
    if k < |ops| {
      assert all[..k] == ops[..k] && all[k] == ops[k];
    } else if k == |ops| {
      assert all[..k] == ops;
      if m <= |es| { assert Torn(all, k, m) == ops + [Append(es[..m])]; }
    } else {
      assert Torn(all, k, m) == all && es == es[..|es|];
    }
  }

  /** What a crash leaves when the recorded operations end in the single entry `e`, or in no append. */
  datatype Mid = Mid(p: P.Proto, s: NodeState)

  lemma PrefixDisk(p: P.Proto, n: NodeId, s: NodeState, d0: Disk, h: Mid, k: nat)
    requires NodeOk(p, n, s) && DiskRests(s, d0)
    requires NodeOk(h.p, n, h.s) && Mirror(h.s, d0) && SnapshotRests(h.s.log, d0.snapshot)
    requires h.s.pending == s.pending || exists op: PersistOp :: h.s.pending == s.pending + [op]
    requires k <= |h.s.pending|
    ensures DiskFor(p, n, ApplyOps(d0, h.s.pending[..k])) || DiskFor(h.p, n, ApplyOps(d0, h.s.pending[..k]))
  {
    hide NodeOk, DiskFor, Mirror, SnapshotRests;
    if k == |h.s.pending| {
      assert h.s.pending[..k] == h.s.pending;
      MirrorOnDisk(h.p, n, h.s, d0);
    } else if k == |s.pending| {
      assert h.s.pending[..k] == s.pending;
      assert Represents(s.log, p.full[n]) by { NodeRepresents(p, n, s); }
      RestMirrors(s, d0, p.full[n]);
      MirrorOnDisk(p, n, s, d0);
    } else {
      assert h.s.pending[..k] == [];
      RestDiskFor(p, n, s, d0);
    }
  }

  lemma NodeRepresents(p: P.Proto, n: NodeId, s: NodeState)
    requires NodeOk(p, n, s)
    ensures n in p.full && Represents(s.log, p.full[n])
  {
  }

  lemma TornHard(p: P.Proto, n: NodeId, s: NodeState, d0: Disk, h: Mid, k: nat, t: nat)
    requires NodeOk(p, n, s) && DiskRests(s, d0)
    requires NodeOk(h.p, n, h.s) && Mirror(h.s, d0) && SnapshotRests(h.s.log, d0.snapshot)
    requires h.s.pending == s.pending || exists op: PersistOp :: !op.Append? && h.s.pending == s.pending + [op]
    requires k <= |h.s.pending|
    ensures DiskFor(p, n, ApplyOps(d0, Torn(h.s.pending, k, t))) ||
            DiskFor(h.p, n, ApplyOps(d0, Torn(h.s.pending, k, t)))
  {
    hide NodeOk, DiskFor, Mirror, SnapshotRests;
    assert NoAppend(h.s.pending);
    TornPlain(h.s.pending, k, t);
    PrefixDisk(p, n, s, d0, h, k);
  }

  /** Operations that end in one new entry: before it the disk is that of `h`, after it that of `f`. */
  lemma TornEntry(p: P.Proto, n: NodeId, s: NodeState, d0: Disk, h: Mid, f: Mid, e: LogEntry, k: nat, t: nat)
    requires NodeOk(p, n, s) && DiskRests(s, d0)
    requires NodeOk(h.p, n, h.s) && Mirror(h.s, d0) && SnapshotRests(h.s.log, d0.snapshot)
    requires NodeOk(f.p, n, f.s) && Mirror(f.s, d0) && SnapshotRests(f.s.log, d0.snapshot)
    requires h.s.pending == s.pending || exists op: PersistOp :: !op.Append? && h.s.pending == s.pending + [op]
    requires f.s.pending == h.s.pending + [Append([e])]
    requires k <= |f.s.pending|
    ensures var d := ApplyOps(d0, Torn(f.s.pending, k, t));
            DiskFor(p, n, d) || DiskFor(h.p, n, d) || DiskFor(f.p, n, d)
  {
    hide NodeOk, DiskFor, Mirror, SnapshotRests;
    assert NoAppend(h.s.pending);
    TornAppend(h.s.pending, [e], k, t);
    var ops := Torn(f.s.pending, k, t);
    if k < |h.s.pending| {
      PrefixDisk(p, n, s, d0, h, k);
    } else if ops == h.s.pending {
      MirrorOnDisk(h.p, n, h.s, d0);
    } else {
      var i: nat :| i <= 1 && ops == h.s.pending + [Append([e][..i])];
      if i == 0 {
        ReplayPush(d0, h.s.pending, Append([]));
        assert [e][..0] == [];
        assert ApplyOps(d0, h.s.pending).log + [] == ApplyOps(d0, h.s.pending).log;
        MirrorOnDisk(h.p, n, h.s, d0);
      } else {
        assert [e][..1] == [e];
        MirrorOnDisk(f.p, n, f.s, d0);
      }
    }
  }
}
