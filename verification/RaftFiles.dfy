/**
 The file-backed store under every run: what an event records can always be written to the log file,
 and a write that stops half-way reloads as one of the disks a crash may leave behind.
 */
module RaftFiles {
  import opened Basics
  import opened Bytes
  import opened RaftTypes
  import opened RaftLog
  import opened RaftNode
  import opened RaftCluster
  import opened RaftSim
  import opened RaftDurable
  import opened RaftRestart
  import opened RaftTorn
  import opened RaftStore
  import S = RaftSafety
  import P = RaftProtocol

  /** Terms, indices and payloads are within the ranges the file format has room for. */
  ghost predicate Fitting(d: Disk, ops: seq<PersistOp>) {
    && AllEncodable(d.log)
    && forall k :: 0 <= k < |ops| && ops[k].Append? ==> AllEncodable(ops[k].entries)
  }

  /** The operations of an event, up to the `k`th, on the disk they are written to. */
  function Written(node: Node, r: Reaction, k: nat): Disk
    requires k <= |r.raft.pending|
  {
    DiskAfter(node.disk, r.saved, r.raft.pending[..k])
  }

  // ---------- encodable entries stay encodable ----------

  lemma {:induction false} BelowEncodable(es: seq<LogEntry>, i: LogIndex)
    requires AllEncodable(es)
    ensures AllEncodable(Below(es, i))
  {
    if es != [] { BelowEncodable(es[1..], i); }
  }

  lemma {:induction false} AboveEncodable(es: seq<LogEntry>, i: LogIndex)
    requires AllEncodable(es)
    ensures AllEncodable(Above(es, i))
  {
    if es != [] { AboveEncodable(es[1..], i); }
  }

  lemma {:induction false} StaysEncodable(d: Disk, ops: seq<PersistOp>)
    requires Fitting(d, ops)
    ensures AllEncodable(ApplyOps(d, ops).log)
    decreases |ops|
  {
    if ops != [] {
      hide Encodable;
      var op := ops[0];
      if op.TruncateFrom? { BelowEncodable(d.log, op.from); }
      if op.CompactThrough? { AboveEncodable(d.log, op.through); }
      assert Fitting(ApplyOp(d, op), ops[1..]);
      StaysEncodable(ApplyOp(d, op), ops[1..]);
    }
  }

  // ---------- a faithful disk has no gap ----------

  lemma FaithfulContiguous(p: P.Proto, n: NodeId, d: Disk)
    requires DiskFor(p, n, d)
    ensures exists first: nat :: Contiguous(d.log, first)
  {
    hide CommitKnown, VoteOk;
    var full := p.full[n];
    var j: nat :| DiskFrom(d, full, j);
    assert Contiguous(d.log, j + 1);
  }

  /** The operations are all of a kind that cannot leave a gap, or every prefix of them leaves a faithful disk. */
  lemma WrittenContiguous(trace: seq<Cluster>, i: nat, n: NodeId, ev: Event, env: Env, k: nat)
    requires Run(trace) && i < |trace| && Enabled(trace[i], n, ev)
    requires var r := React(trace[i].nodes[n], ev, env);
             k <= |r.raft.pending| && r.flush && (ev.Receive? ==> r.saved == None)
    ensures exists first: nat :: Contiguous(Written(trace[i].nodes[n], React(trace[i].nodes[n], ev, env), k).log, first)
  {
    hide Run, Sim, P.Inv, React, DiskAfter, DiskFor, Resting, MessageOk, Contiguous, Leaves;
    var p, q := S.TwoMoments(trace, i, i);
    var node := trace[i].nodes[n];
    var r := React(node, ev, env);
    assert Resting(p, n, node.raft, node.disk) && (ev.Receive? ==> MessageOk(p, n, ev.msg)) by {
      SimRests(trace[i], p, n, ev);
    }
    var m := WholeCut(r.raft.pending, k);
    assert LeavesDisk(node, ev, env, Written(node, r, k));
    var p' := TornOk(p, n, node, ev, env, Written(node, r, k));
    assert DiskFor(p', n, Written(node, r, k)) by { LeavesFor(p, p', n, Written(node, r, k)); }
    FaithfulContiguous(p', n, Written(node, r, k));
  }

  lemma SimRests(c: Cluster, p: P.Proto, n: NodeId, ev: Event)
    requires Sim(c, p) && Enabled(c, n, ev)
    ensures Resting(p, n, c.nodes[n].raft, c.nodes[n].disk) && (ev.Receive? ==> MessageOk(p, n, ev.msg))
  {
    hide P.Inv, NodeOk, DiskRests, MessageOk;
  }

  lemma LeavesFor(p: P.Proto, p': P.Proto, n: NodeId, d: Disk)
    requires Leaves(p, p', n, d)
    ensures DiskFor(p', n, d)
  {
  }

  /** A crash may fall between two operations. */
  lemma WholeCut(ops: seq<PersistOp>, k: nat) returns (m: nat)
    requires k <= |ops|
    ensures Torn(ops, k, m) == ops[..k]
  {
    m := if k < |ops| && ops[k].Append? then |ops[k].entries| + 1 else 0;
  }

  // ---------- what can only trim ----------

  /** Installing a snapshot records no entries. */
  lemma InstallAppendless(s: NodeState, m: Message, progress: nat)
    requires m.InstallSnapshot? && NoAppend(s.pending)
    ensures NoAppend(OnMessage(s, m, progress).state.pending)
  {
    hide Install, KeepsSuffix, DrainFrom, PersistHard;
    StepDownAppendless(s, m.term);
    var s1 := if s.term < m.term then StepDown(s, m.term) else s;
    HardAppendless(s1.(term := m.term, votedFor := None));
  }

  /** An event whose operations may be cut anywhere, or one that records no entries at all. */
  lemma CuttableOrAppendless(p: P.Proto, n: NodeId, node: Node, ev: Event, env: Env)
    requires Resting(p, n, node.raft, node.disk)
    ensures var r := React(node, ev, env); (r.flush && (ev.Receive? ==> r.saved == None)) || NoAppend(r.raft.pending)
  {
    hide Resting, OnMessage, ElectionTimeout, Propose, TakeSnapshot, HeartbeatTick;
    RestingShape(p, n, node.raft, node.disk);
    if ev.Receive? && ev.msg.InstallSnapshot? {
      var s := node.raft;
      InstallAppendless(s, ev.msg, if s.term <= ev.msg.term && node.transfer then env.progress else 0);
    }
  }

  // ---------- the store can carry out every event ----------

  lemma {:induction false} FitFrom(d: Disk, ops: seq<PersistOp>)
    requires forall k :: 0 <= k < |ops| && ops[k].Append? ==> Fits(ApplyOps(d, ops[..k + 1]).log)
    ensures OpsFit(d, ops)
    decreases |ops|
  {
    if ops != [] {
      hide Fits;
      var d', rest := ApplyOp(d, ops[0]), ops[1..];
      assert ops[..1] == [ops[0]];
      assert ApplyOps(d, [ops[0]]) == d' by { assert [ops[0]][1..] == []; }
      forall k | 0 <= k < |rest| && rest[k].Append? ensures Fits(ApplyOps(d', rest[..k + 1]).log) {
        assert ops[..k + 2] == [ops[0]] + rest[..k + 1];
        assert ops[..k + 2][1..] == rest[..k + 1];
        assert ops[k + 1] == rest[k] && Fits(ApplyOps(d, ops[..k + 1 + 1]).log);
      }
      FitFrom(d', rest);
    }
  }

  /**
   In every run, the operations any event records fit the log file, whole and in order, as long as the
   numbers and payloads in them do; so the file-backed store takes each of them as the in-memory one does.
   */
  lemma EveryEventFits(trace: seq<Cluster>, i: nat, n: NodeId, ev: Event, env: Env)
    requires Run(trace) && i < |trace| && Enabled(trace[i], n, ev)
    requires Fitting(trace[i].nodes[n].disk, React(trace[i].nodes[n], ev, env).raft.pending)
    ensures var node := trace[i].nodes[n]; var r := React(node, ev, env);
            OpsFit(DiskAfter(node.disk, r.saved, []), r.raft.pending)
  {
    hide Run, Sim, P.Inv, React, Resting, Contiguous, Fitting, ApplyOps, NoAppend;
    var node := trace[i].nodes[n];
    var r := React(node, ev, env);
    var d := if r.saved.Some? then node.disk.(snapshot := r.saved) else node.disk;
    assert DiskAfter(node.disk, r.saved, []) == d by { NoOps(d); }
    var p, q := S.TwoMoments(trace, i, i);
    assert Resting(p, n, node.raft, node.disk) by { SimRests(trace[i], p, n, ev); }
    CuttableOrAppendless(p, n, node, ev, env);
    forall k | 0 <= k < |r.raft.pending| && r.raft.pending[k].Append?
      ensures Fits(ApplyOps(d, r.raft.pending[..k + 1]).log)
    {
      AppendsSomething(r.raft.pending, k);
      WrittenContiguous(trace, i, n, ev, env, k + 1);
      FittingPart(node.disk, d, r.raft.pending, k + 1);
      assert Written(node, r, k + 1) == ApplyOps(d, r.raft.pending[..k + 1]);
    }
    FitFrom(d, r.raft.pending);
  }

  lemma AppendsSomething(ops: seq<PersistOp>, k: nat)
    requires k < |ops| && ops[k].Append?
    ensures !NoAppend(ops)
  {
  }

  lemma FittingPart(d0: Disk, d: Disk, ops: seq<PersistOp>, k: nat)
    requires Fitting(d0, ops) && k <= |ops| && d.log == d0.log
    ensures AllEncodable(ApplyOps(d, ops[..k]).log)
  {
    hide Encodable;
    StaysEncodable(d, ops[..k]);
  }

  /**
   In every run, a crash that cuts the log file anywhere inside the bytes of an append reloads as the
   disk of some crash in the middle of that event, one a run allows and can restart from.
   */
  lemma TornFileReloads(trace: seq<Cluster>, i: nat, n: NodeId, ev: Event, env: Env, crc: Checksum, k: nat, cut: nat)
    returns (m: nat)
    requires Run(trace) && i < |trace| && Enabled(trace[i], n, ev)
    requires Fitting(trace[i].nodes[n].disk, React(trace[i].nodes[n], ev, env).raft.pending)
    requires var ops := React(trace[i].nodes[n], ev, env).raft.pending;
             k < |ops| && ops[k].Append? && cut <= |EncodeAll(crc, ops[k].entries)|
    ensures var node := trace[i].nodes[n]; var r := React(node, ev, env);
            var es := r.raft.pending[k].entries;
            m <= |es| && LeavesDisk(node, ev, env, DiskAfter(node.disk, r.saved, Torn(r.raft.pending, k, m)))
            && DecodeLog(crc, EncodeAll(crc, Written(node, r, k).log) + EncodeAll(crc, es)[..cut])
               == DiskAfter(node.disk, r.saved, Torn(r.raft.pending, k, m)).log
  {
    hide Run, Sim, P.Inv, React, Resting, Contiguous, Fitting, NoAppend, DecodeLog, EncodeAll, Encodable, AllEncodable,
         ApplyOps;
    var node := trace[i].nodes[n];
    var r := React(node, ev, env);
    var ops := r.raft.pending;
    var p, q := S.TwoMoments(trace, i, i);
    assert Resting(p, n, node.raft, node.disk) by { SimRests(trace[i], p, n, ev); }
    CuttableOrAppendless(p, n, node, ev, env);
    AppendsSomething(ops, k);
    WrittenContiguous(trace, i, n, ev, env, k + 1);
    var d := if r.saved.Some? then node.disk.(snapshot := r.saved) else node.disk;
    FittingPart(node.disk, d, ops, k + 1);
    WrittenPush(d, ops, k);
    m := TornAppendReloads(crc, Written(node, r, k).log, ops[k].entries, cut);
    TornWritten(d, ops, k, m);
  }

  lemma WrittenPush(d: Disk, ops: seq<PersistOp>, k: nat)
    requires k < |ops| && ops[k].Append?
    ensures ApplyOps(d, ops[..k + 1]).log == ApplyOps(d, ops[..k]).log + ops[k].entries
  {
    assert ops[..k + 1] == ops[..k] + [ops[k]];
    ReplayPush(d, ops[..k], ops[k]);
  }

  lemma TornWritten(d: Disk, ops: seq<PersistOp>, k: nat, m: nat)
    requires k < |ops| && ops[k].Append? && m <= |ops[k].entries|
    ensures ApplyOps(d, Torn(ops, k, m)).log == ApplyOps(d, ops[..k]).log + ops[k].entries[..m]
  {
    ReplayPush(d, ops[..k], Append(ops[k].entries[..m]));
  }
}
