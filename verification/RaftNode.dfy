/**
 One Raft node as a value: what each event does to its state and which actions it asks for. The
 mutable node in `RaftState` is proved to compute these functions; the cluster proofs reason about
 them.
 */
module RaftNode {
  import opened Basics
  import opened RaftTypes
  import opened RaftLog

  const MAX_APPEND_ENTRIES: nat := 1024
  const MAX_APPEND_BYTES: nat := 4 * 1024 * 1024
  const MAX_TERM_JUMP: nat := 1048576
  const MAX_TERM: nat := 0xFFFF_FFFF_FFFF_FFFF

  datatype Role = Follower | Candidate | Leader

  datatype Action =
    | SendTo(peer: NodeId, msg: Message)
    | Broadcast(msg: Message)
    | ResetElectionTimer
    | Apply(entry: LogEntry)
    | SendSnapshot(peer: NodeId)

  datatype NodeState = NodeState(
    me: NodeId,
    peers: seq<NodeId>,
    role: Role,
    term: Term,
    votedFor: Option<NodeId>,
    leaderHint: Option<NodeId>,
    log: Log,
    commitIndex: LogIndex,
    lastApplied: LogIndex,
    matchIndex: map<NodeId, LogIndex>,
    nextIndex: map<NodeId, LogIndex>,
    snapshotCursor: map<NodeId, nat>,
    noopOnElect: bool,
    votes: set<NodeId>,
    pending: seq<PersistOp>)

  datatype Step = Step(state: NodeState, actions: seq<Action>)

  function Fresh(me: NodeId, peers: seq<NodeId>, noopOnElect: bool): NodeState {
    NodeState(me, peers, Follower, 0, None, None, Log([], 0, 0), 0, 0, map[], map[], map[], noopOnElect, {}, [])
  }

  // ---------- small helpers ----------

  function QuorumSize(peers: seq<NodeId>): nat {
    (|peers| + 1) / 2 + 1
  }

  function At(m: map<NodeId, nat>, n: NodeId, default: nat): nat {
    if n in m then m[n] else default
  }

  function WithoutHardState(ops: seq<PersistOp>): seq<PersistOp> {
    if ops == [] then []
    else (if ops[0].HardState? then [] else [ops[0]]) + WithoutHardState(ops[1..])
  }

  /** Only the newest hard state matters: earlier ones still pending are dropped. */
  function PersistHard(s: NodeState): NodeState {
    s.(pending := WithoutHardState(s.pending) + [HardState(s.term, s.votedFor)])
  }

  function AppendLocal(s: NodeState, payload: seq<byte>): NodeState {
    var e := LogEntry(s.term, LastIndex(s.log) + 1, payload);
    s.(pending := s.pending + [Append([e])], log := s.log.(entries := s.log.entries + [e]))
  }

  function StepDown(s: NodeState, term: Term): NodeState {
    var s1 := s.(term := Max(s.term, term), votedFor := None);
    var s2 := if s.term < term || s.votedFor.Some? then PersistHard(s1) else s1;
    Forget(s2)
  }

  function Forget(s: NodeState): NodeState {
    s.(role := Follower, votes := {}, leaderHint := None, matchIndex := map[], nextIndex := map[],
       snapshotCursor := map[])
  }

  /** Accept `leader` as the leader of `term`, which is not older than ours. */
  function Follow(s: NodeState, term: Term, leader: NodeId): NodeState {
    var s1 := if s.term < term then PersistHard(s.(term := term, votedFor := None)) else s;
    s1.(role := Follower, leaderHint := Some(leader))
  }

  // ---------- commit rule ----------

  function InsertSorted(x: nat, s: seq<nat>): seq<nat> {
    if s == [] || x <= s[0] then [x] + s else [s[0]] + InsertSorted(x, s[1..])
  }

  function Sorted(s: seq<nat>): (r: seq<nat>)
    ensures |r| == |s|
  {
    if s == [] then [] else var r := InsertSorted(s[0], Sorted(s[1..])); InsertLength(s[0], Sorted(s[1..])); r
  }

  lemma InsertLength(x: nat, s: seq<nat>)
    ensures |InsertSorted(x, s)| == |s| + 1
  {
  }

  function HeldBy(peers: seq<NodeId>, held: map<NodeId, nat>): (r: seq<nat>)
    ensures |r| == |peers|
  {
    seq(|peers|, i requires 0 <= i < |peers| => At(held, peers[i], 0))
  }

  /** What each member holds, as far as this leader knows: its peers in order, then itself. */
  function Replicated(s: NodeState): (r: seq<nat>)
    ensures |r| == |s.peers| + 1
  {
    HeldBy(s.peers, s.matchIndex) + [LastIndex(s.log)]
  }

  function CommitCandidate(s: NodeState): nat {
    Sorted(Replicated(s))[|s.peers| + 1 - QuorumSize(s.peers)]
  }

  function Recompute(s: NodeState): NodeState {
    if s.commitIndex < CommitCandidate(s) && TermAt(s.log, CommitCandidate(s)) == Some(s.term)
    then s.(commitIndex := CommitCandidate(s)) else s
  }

  lemma RecomputeSame(s: NodeState)
    ensures Recompute(s) == s.(commitIndex := Recompute(s).commitIndex)
  {
  }

  // ---------- replication ----------

  function BuildAppend(s: NodeState, peer: NodeId): Message {
    var next := At(s.nextIndex, peer, 1);
    var prev := if next == 0 then 0 else next - 1;
    var prevTerm := match TermAt(s.log, prev) case Some(t) => t case None => 0;
    AppendEntries(s.term, s.me, prev, prevTerm,
                  SliceBounded(s.log, next, MAX_APPEND_ENTRIES, MAX_APPEND_BYTES), s.commitIndex)
  }

  function ReplicateTo(s: NodeState, peer: NodeId): Action {
    if At(s.nextIndex, peer, 1) <= s.log.baseIndex then SendSnapshot(peer) else SendTo(peer, BuildAppend(s, peer))
  }

  function HeartbeatTick(s: NodeState): seq<Action> {
    if s.role != Leader then [] else seq(|s.peers|, i requires 0 <= i < |s.peers| => ReplicateTo(s, s.peers[i]))
  }

  // ---------- handing committed entries to the application ----------

  function DrainFrom(l: Log, applied: LogIndex, commit: LogIndex): seq<Action>
    decreases commit - applied
  {
    if commit <= applied then []
    else
      var rest := DrainFrom(l, applied + 1, commit);
      match Get(l, applied + 1)
      case None => rest
      case Some(e) => if e.payload == [] then rest else [Apply(e)] + rest
  }

  lemma DrainStep(l: Log, applied: LogIndex, commit: LogIndex)
    requires applied < commit
    ensures var e := Get(l, applied + 1);
            DrainFrom(l, applied, commit) ==
            (if e.Some? && e.value.payload != [] then [Apply(e.value)] else []) + DrainFrom(l, applied + 1, commit)
  {
  }

  lemma DrainNone(l: Log, applied: LogIndex, commit: LogIndex)
    requires commit <= applied
    ensures DrainFrom(l, applied, commit) == []
  {
  }

  function Drain(s: NodeState): Step {
    Step(s.(lastApplied := Max(s.lastApplied, s.commitIndex)), DrainFrom(s.log, s.lastApplied, s.commitIndex))
  }

  lemma DrainKeepsLog(s: NodeState)
    ensures Drain(s).state.log == s.log
  {
  }

  // ---------- elections ----------

  function Claim(s: NodeState): NodeState {
    var s1 := s.(role := Leader, leaderHint := Some(s.me), matchIndex := map[], nextIndex := map[],
                 snapshotCursor := map[]);
    if s.noopOnElect then AppendLocal(s1, []) else s1
  }

  function TrackPeers(s: NodeState): NodeState {
    var last := LastIndex(s.log);
    s.(matchIndex := map p | p in s.peers :: 0, nextIndex := map p | p in s.peers :: last + 1, votes := {})
  }

  function BecomeLeader(s: NodeState): NodeState {
    Recompute(TrackPeers(Claim(s)))
  }

  lemma LeadsInTerm(s: NodeState)
    ensures BecomeLeader(s).term == s.term
  {
    RecomputeSame(TrackPeers(Claim(s)));
  }

  function Campaign(s: NodeState): NodeState {
    PersistHard(s.(term := s.term + 1, role := Candidate, votedFor := Some(s.me), votes := {s.me}, leaderHint := None))
  }

  function ElectionTimeout(s: NodeState): Step {
    if s.role == Leader then Step(s, [])
    else
      var c := Campaign(s);
      if s.peers == [] then
        var l := BecomeLeader(c);
        var d := Drain(l);
        Step(d.state, HeartbeatTick(l) + d.actions)
      else
        Step(c, [ResetElectionTimer, Broadcast(RequestVote(c.term, c.me, LastIndex(c.log), LastTerm(c.log)))])
  }

  function HandleRequestVote(s: NodeState, m: Message): Step
    requires m.RequestVote?
  {
    var upToDate := LastTerm(s.log) < m.lastLogTerm
                    || (m.lastLogTerm == LastTerm(s.log) && LastIndex(s.log) <= m.lastLogIndex);
    var grant := s.term <= m.term && upToDate && (s.votedFor == None || s.votedFor == Some(m.candidate));
    var s1 := if grant && s.votedFor != Some(m.candidate) then PersistHard(s.(votedFor := Some(m.candidate))) else s;
    Step(s1, [SendTo(m.candidate, RequestVoteResp(s1.term, grant, s1.me))]
             + if grant then [ResetElectionTimer] else [])
  }

  function HandleRequestVoteResp(s: NodeState, m: Message): Step
    requires m.RequestVoteResp?
  {
    if s.role != Candidate || m.term != s.term || !m.granted then Step(s, [])
    else
      var s1 := s.(votes := s.votes + {m.voter});
      if QuorumSize(s.peers) <= |s1.votes| then var l := BecomeLeader(s1); Step(l, HeartbeatTick(l))
      else Step(s1, [])
  }

  // ---------- log replication ----------

  predicate Consistent(s: NodeState, m: Message)
    requires m.AppendEntries?
  {
    m.prevLogIndex == 0 || m.prevLogIndex < s.log.baseIndex || TermAt(s.log, m.prevLogIndex) == Some(m.prevLogTerm)
  }

  /** The log part of an AppendEntries: `None` when the entries are rejected. */
  function AcceptEntries(s: NodeState, m: Message): Option<NodeState>
    requires m.AppendEntries?
  {
    if !Consistent(s, m) then None
    else
      match (if m.entries == [] then Appended(s.log, None)
             else AppendAt(s.log, m.prevLogIndex + 1, m.entries, s.commitIndex))
      case Refused => None
      case Appended(l, changed) =>
        var s1 := s.(log := l);
        var s2 := if changed.None? then s1
                  else s1.(pending := s1.pending +
                                      [TruncateFrom(changed.value), Append(EntriesFrom(l, changed.value))]);
        var last := m.prevLogIndex + |m.entries|;
        Some(s2.(commitIndex := Max(s.commitIndex, Min(m.leaderCommit, last))))
  }

  function HandleAppendEntries(s: NodeState, m: Message): Step
    requires m.AppendEntries?
  {
    if m.term < s.term then Step(s, [SendTo(m.leader, AppendEntriesResp(s.term, false, s.me, 0))])
    else
      var s1 := Follow(s, m.term, m.leader);
      match AcceptEntries(s1, m)
      case None =>
        Step(s1, [SendTo(m.leader, AppendEntriesResp(s1.term, false, s1.me, LastIndex(s1.log))), ResetElectionTimer])
      case Some(s2) =>
        var resp := AppendEntriesResp(s2.term, true, s2.me, m.prevLogIndex + |m.entries|);
        Step(s2, [SendTo(m.leader, resp), ResetElectionTimer])
  }

  function HandleAppendEntriesResp(s: NodeState, m: Message): Step
    requires m.AppendEntriesResp?
  {
    if s.role != Leader || m.term != s.term then Step(s, [])
    else if m.success then
      var s1 := Recompute(NoteMatch(s, m.responder, m.matchIndex));
      Step(s1, if Matched(s, m.responder, m.matchIndex) < LastIndex(s.log) then [ReplicateTo(s1, m.responder)] else [])
    else
      var s1 := BackOff(s, m.responder, m.matchIndex);
      Step(s1, [ReplicateTo(s1, m.responder)])
  }

  /** A peer cannot have replicated further than we wrote, nor fall behind what it already reported. */
  function Matched(s: NodeState, peer: NodeId, reported: LogIndex): LogIndex {
    Max(Min(reported, LastIndex(s.log)), At(s.matchIndex, peer, 0))
  }

  function NoteMatch(s: NodeState, peer: NodeId, reported: LogIndex): NodeState {
    var mi := Matched(s, peer, reported);
    s.(matchIndex := if At(s.matchIndex, peer, 0) < mi then s.matchIndex[peer := mi] else s.matchIndex,
       nextIndex := s.nextIndex[peer := mi + 1])
  }

  function BackOff(s: NodeState, peer: NodeId, hint: LogIndex): NodeState {
    var cur := At(s.nextIndex, peer, 1);
    s.(nextIndex := s.nextIndex[peer := Max(Min(if cur == 0 then 0 else cur - 1, hint + 1), 1)])
  }

  // ---------- snapshots ----------

  function HandleInstallSnapshot(s: NodeState, m: Message, progress: nat): Step
    requires m.InstallSnapshot?
  {
    if m.term < s.term then Step(s, [SendTo(m.leader, InstallSnapshotResp(s.term, false, s.me, progress, 0))])
    else
      var s1 := Follow(s, m.term, m.leader);
      var s2 := if m.done then InstallDone(s1, m) else s1;
      var installed := if m.done then Max(m.lastIndex, s2.log.baseIndex) else 0;
      Step(s2, [SendTo(m.leader, InstallSnapshotResp(s2.term, true, s2.me, progress, installed)), ResetElectionTimer])
  }

  function InstallDone(s: NodeState, m: Message): NodeState
    requires m.InstallSnapshot?
  {
    var s1 :=
      if s.log.baseIndex < m.lastIndex then
        s.(log := Install(s.log, m.lastIndex, m.lastTerm),
           pending := s.pending + [if KeepsSuffix(s.log, m.lastIndex, m.lastTerm) then CompactThrough(m.lastIndex)
                                   else TruncateFrom(0)])
      else s;
    s1.(commitIndex := Max(s.commitIndex, m.lastIndex), lastApplied := Max(s.lastApplied, m.lastIndex))
  }

  function HandleInstallSnapshotResp(s: NodeState, m: Message): Step
    requires m.InstallSnapshotResp?
  {
    if s.role != Leader || m.term != s.term || !m.success then Step(s, [])
    else if 0 < m.installedIndex then
      var mi := Matched(s, m.responder, m.installedIndex);
      var s1 := Recompute(NoteInstalled(s, m.responder, m.installedIndex));
      Step(s1, if mi < LastIndex(s.log) || mi < s.log.baseIndex then [ReplicateTo(s1, m.responder)] else [])
    else
      Step(s.(snapshotCursor := s.snapshotCursor[m.responder := m.nextOffset]), [SendSnapshot(m.responder)])
  }

  function NoteInstalled(s: NodeState, peer: NodeId, installed: LogIndex): NodeState {
    var mi := Matched(s, peer, installed);
    s.(matchIndex := s.matchIndex[peer := mi],
       nextIndex := s.nextIndex[peer := mi + 1],
       snapshotCursor := s.snapshotCursor - {peer})
  }

  /** Snapshot through `through`, capped at what was handed to the application; `None` when refused. */
  function TakeSnapshot(s: NodeState, data: seq<byte>, through: Option<LogIndex>): Option<(NodeState, Snapshot)> {
    var cut := match through case Some(t) => Min(t, s.lastApplied) case None => s.lastApplied;
    if cut == 0 || cut <= s.log.baseIndex then None
    else match TermAt(s.log, cut)
      case None => None
      case Some(t) =>
        Some((s.(log := CompactTo(s.log, cut, t), pending := s.pending + [CompactThrough(cut)]),
              Snapshot(cut, t, data)))
  }

  // ---------- events ----------

  function Dispatch(s: NodeState, m: Message, progress: nat): Step {
    match m
    case RequestVote(_, _, _, _) => HandleRequestVote(s, m)
    case RequestVoteResp(_, _, _) => HandleRequestVoteResp(s, m)
    case AppendEntries(_, _, _, _, _, _) => HandleAppendEntries(s, m)
    case AppendEntriesResp(_, _, _, _) => HandleAppendEntriesResp(s, m)
    case InstallSnapshot(_, _, _, _, _, _, _) => HandleInstallSnapshot(s, m, progress)
    case InstallSnapshotResp(_, _, _, _, _) => HandleInstallSnapshotResp(s, m)
  }

  predicate Ignored(s: NodeState, m: Message) {
    m.Sender() !in s.peers || s.term + MAX_TERM_JUMP < m.term || m.term == MAX_TERM
  }

  function OnMessage(s: NodeState, m: Message, progress: nat): Step {
    if Ignored(s, m) then Step(s, [])
    else
      var newer := s.term < m.term;
      var r := Dispatch(if newer then StepDown(s, m.term) else s, m, progress);
      var acts := if newer && ResetElectionTimer !in r.actions then [ResetElectionTimer] + r.actions else r.actions;
      var d := Drain(r.state);
      Step(d.state, acts + d.actions)
  }

  datatype ProposeOutcome = Accepted(index: LogIndex) | NotLeader(hint: Option<NodeId>)

  function Propose(s: NodeState, payload: seq<byte>): (ProposeOutcome, Step) {
    if s.role != Leader then (NotLeader(s.leaderHint), Step(s, []))
    else
      var s1 := AppendLocal(s, payload);
      (Accepted(LastIndex(s.log) + 1), Drain(Recompute(s1)))
  }

  // ---------- restart ----------

  datatype Disk = Disk(term: Term, votedFor: Option<NodeId>, log: seq<LogEntry>, snapshot: Option<Snapshot>)

  function Below(es: seq<LogEntry>, from: LogIndex): seq<LogEntry> {
    if es == [] then [] else (if es[0].index < from then [es[0]] else []) + Below(es[1..], from)
  }

  function Above(es: seq<LogEntry>, through: LogIndex): seq<LogEntry> {
    if es == [] then [] else (if through < es[0].index then [es[0]] else []) + Above(es[1..], through)
  }

  /** The in-memory store: what each durable operation means. */
  function ApplyOp(d: Disk, op: PersistOp): Disk {
    match op
    case HardState(t, v) => d.(term := t, votedFor := v)
    case Append(es) => d.(log := d.log + es)
    case TruncateFrom(f) => d.(log := Below(d.log, f))
    case CompactThrough(t) => d.(log := Above(d.log, t))
  }

  function ApplyOps(d: Disk, ops: seq<PersistOp>): Disk
    decreases |ops|
  {
    if ops == [] then d else ApplyOps(ApplyOp(d, ops[0]), ops[1..])
  }

  lemma NoOps(d: Disk)
    ensures ApplyOps(d, []) == d
  {
  }

  /** Drop what the snapshot covers: it is committed and applied. */
  function Rebase(s: NodeState, snap: Snapshot): NodeState {
    var trims := s.log.entries != [] && s.log.entries[0].index <= snap.lastIndex;
    s.(pending := s.pending + if trims then [CompactThrough(snap.lastIndex)] else [],
       log := CompactTo(s.log, snap.lastIndex, snap.lastTerm).(baseIndex := snap.lastIndex, baseTerm := snap.lastTerm),
       commitIndex := Max(s.commitIndex, snap.lastIndex),
       lastApplied := Max(s.lastApplied, snap.lastIndex))
  }

  /** A node rebuilt from its disk; `None` when entries between snapshot and log are missing. */
  function Restore(me: NodeId, peers: seq<NodeId>, noopOnElect: bool, d: Disk): Option<NodeState> {
    var s0 := Fresh(me, peers, noopOnElect).(term := d.term, votedFor := d.votedFor, log := Log(d.log, 0, 0));
    var s1 := match d.snapshot case None => s0 case Some(snap) => Rebase(s0, snap);
    if s1.log.entries != [] && s1.log.entries[0].index != s1.log.baseIndex + 1 then None else Some(s1)
  }
}
