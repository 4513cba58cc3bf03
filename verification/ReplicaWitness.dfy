/** A replicated run that does something: a batch is proposed, committed, and stored by the leader's partition. */
module ReplicaWitness {
  import opened Basics
  import opened RaftTypes
  import opened RaftLog
  import opened RaftCluster
  import opened ReplicaLog
  import opened ReplicaRuns
  import R = Replica
  import K = ReplicaCodec
  import W = RaftWitness

  const NOTHING := Applier(0, R.Empty)

  function Idle(c: Cluster): World {
    World(c, map n | n in c.nodes :: NOTHING)
  }

  lemma IdleStep(c: Cluster, c': Cluster, cmd: R.Command, ws: seq<World>, i: nat)
    requires K.Encodable(cmd) && cmd.base == 0 && cmd.records != [] && c.nodes.Keys != {}
    requires W.PlainNext(c, c', K.EncodeBatch(cmd)) && i + 1 < |ws| && ws[i] == Idle(c) && ws[i + 1] == Idle(c')
    ensures ReplicaRuns.Next(ws, i) && c'.nodes.Keys == c.nodes.Keys
  {
    hide K.EncodeBatch, Process;
    var n, ev :| W.PlainStep(c, c', n, ev, K.EncodeBatch(cmd));
    assert c'.nodes.Keys == c.nodes.Keys;
    assert ws[i].appliers[n] == NOTHING;
    HadNow(ws, i, n);
    if ev.Submit? { FirstBatch(cmd, c.nodes[n].raft.log); }
    assert EventStep(ws[i], ws[i + 1], n, ev, W.Quiet, NOTHING);
  }

  lemma FirstBatch(cmd: R.Command, l: Log)
    requires K.Encodable(cmd) && cmd.base == 0 && cmd.records != [] && l.entries == []
    ensures Proposed(l, 0, K.EncodeBatch(cmd))
  {
    hide K.EncodeBatch, K.DecodeCommand;
    K.BatchRoundTrip(cmd);
    assert Cmds(l.entries) == [];
  }

  lemma NotConfig(cmd: R.Command)
    requires K.Encodable(cmd)
    ensures K.EncodeBatch(cmd) != [] && !IsConfigEntry(K.EncodeBatch(cmd))
  {
    assert K.EncodeBatch(cmd)[0] == 1;
  }

  /** The run with idle appliers, and at its end the leader's apply loop storing the entry. */
  function Storing(trace: seq<Cluster>, e: LogEntry): (ws: seq<World>)
    requires trace != []
    ensures |ws| == |trace| + 1 && forall i :: 0 <= i < |trace| ==> ws[i] == Idle(trace[i])
  {
    var last := Idle(trace[|trace| - 1]);
    seq(|trace|, i requires 0 <= i < |trace| => Idle(trace[i])) +
    [last.(appliers := last.appliers[0 := Applier(1, Advanced(R.Empty, e))])]
  }

  lemma Stored(cmd: R.Command, e: LogEntry)
    requires K.Encodable(cmd) && cmd.base == 0 && e.payload == K.EncodeBatch(cmd)
    ensures Advanced(R.Empty, e).records == R.ToRecords(0, cmd.records)
  {
    hide K.EncodeBatch, K.Encodable, CmdOf, R.Apply, R.ToRecords;
    Decoded(cmd);
    R.ApplyNew(R.Empty, cmd);
    assert [] + R.ToRecords(0, cmd.records) == R.ToRecords(0, cmd.records);
  }

  /** Any batch that starts at offset 0 can be committed and stored. */
  lemma SomeReplicaHolds(cmd: R.Command) returns (ws: seq<World>)
    requires K.Encodable(cmd) && cmd.base == 0 && cmd.records != []
    ensures ReplicaRuns.Run(ws)
    ensures var w := ws[|ws| - 1]; 0 in w.appliers && w.appliers[0].rep.records == R.ToRecords(0, cmd.records)
  {
    hide K.EncodeBatch, K.Encodable, W.PlainNext, Init, ReplicaRuns.Next, RaftCluster.Next, Advanced, R.ToRecords;
    NotConfig(cmd);
    var trace := W.SomeRunApplies(K.EncodeBatch(cmd));
    var n, e := |trace|, W.Entry(K.EncodeBatch(cmd));
    ws := Storing(trace, e);
    forall i | 0 <= i < n - 1 ensures ReplicaRuns.Next(ws, i) {
      KeysStay(trace, K.EncodeBatch(cmd), i);
      IdleStep(trace[i], trace[i + 1], cmd, ws, i);
    }
    Stores(ws, n - 1, e);
    Stored(cmd, e);
  }

  lemma Decoded(cmd: R.Command)
    requires K.Encodable(cmd)
    ensures CmdOf(K.EncodeBatch(cmd)) == Some(cmd)
  {
    hide K.EncodeBatch, K.DecodeCommand;
    K.BatchRoundTrip(cmd);
  }

  lemma {:induction false} KeysStay(trace: seq<Cluster>, payload: seq<byte>, i: nat)
    requires i < |trace| && trace[0].nodes.Keys == {0, 1}
    requires forall j :: 0 <= j < |trace| - 1 ==> W.PlainNext(trace[j], trace[j + 1], payload)
    ensures trace[i].nodes.Keys == {0, 1}
  {
    hide Process;
    if i > 0 {
      KeysStay(trace, payload, i - 1);
      assert W.PlainNext(trace[i - 1], trace[i - 1 + 1], payload);
      PlainKeys(trace[i - 1], trace[i], payload);
    }
  }

  lemma PlainKeys(c: Cluster, c': Cluster, payload: seq<byte>)
    requires W.PlainNext(c, c', payload)
    ensures c'.nodes.Keys == c.nodes.Keys
  {
    hide Process;
  }

  /** The leader's apply loop takes the committed entry. */
  lemma Stores(ws: seq<World>, i: nat, e: LogEntry)
    requires i + 1 < |ws| && 0 in ws[i].cluster.nodes && 0 in ws[i].appliers && ws[i].appliers[0] == NOTHING
    requires var s := ws[i].cluster.nodes[0].raft; s.lastApplied == 1 && s.log == Log([e], 0, 0) && e.index == 1
    requires ws[i + 1] == ws[i].(appliers := ws[i].appliers[0 := Applier(1, Advanced(R.Empty, e))])
    ensures ReplicaRuns.Next(ws, i)
  {
    hide Advanced;
    assert Applies(ws[i], ws[i + 1], 0);
  }
}
