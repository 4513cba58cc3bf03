/**
 Catch-up of one follower: as long as the term is stable and messages get through, the exchange of
 replication messages and replies ends with the follower holding the leader's whole log.
 */
module RaftCatchUp {
  import opened Basics
  import opened RaftTypes
  import opened RaftLog
  import opened RaftNode
  import opened RaftCluster
  import opened RaftSim
  import opened RaftSteps
  import opened RaftFollower
  import opened RaftEvents
  import opened RaftNext
  import opened RaftSafety
  import opened RaftSettled
  import P = RaftProtocol

  /** The two nodes, and how far the follower's own state reaches. */
  datatype Pair = Pair(leader: NodeState, follower: NodeState, at: nat)

  /**
   How the leader ships its snapshot: as its stored bytes in one message, or with a transfer in chunks. The
   state ends at `end`, and a chunk read at `x` holds the bytes up to `reach(x)`.
   */
  datatype Carry = Carry(transfer: bool, data: seq<byte>, end: nat, reach: nat -> nat, bytes: nat -> seq<byte>)

  /** Positions are 64 bits wide, and a chunk that is read before the end holds something. */
  ghost predicate Carries(k: Carry) {
    k.end <= PROBE_OFFSET && forall x: nat :: x < k.end ==> x < k.reach(x) <= k.end
  }

  function ChunkEnd(k: Carry, from: nat): nat {
    if from < k.end then k.reach(from) else from
  }

  /** The message a node answers with. */
  function Reply(actions: seq<Action>): Option<Message> {
    if actions == [] then None
    else if actions[0].SendTo? then Some(actions[0].msg)
    else Reply(actions[1..])
  }

  /** What the leader sends the follower next: entries, or what is due of the snapshot its log starts from. */
  function Request(pr: Pair, k: Carry): Message {
    var l, q := pr.leader, pr.follower.me;
    match ReplicateTo(l, q)
    case SendTo(_, m) => m
    case _ => Shipped(l, q, k)
  }

  function Shipped(l: NodeState, q: NodeId, k: Carry): Message {
    var from := At(l.snapshotCursor, q, 0);
    var chunk := Chunk(k.bytes(from), k.end <= ChunkEnd(k, from));
    SnapshotMessage(l, Snapshot(l.log.baseIndex, l.log.baseTerm, k.data), k.transfer, q,
                    Env(true, 0, [], map[q := chunk])).value
  }

  /** How far the follower's state reaches once it has applied what the message carries. */
  function Reached(at: nat, k: Carry, m: Message): nat {
    if m.InstallSnapshot? && k.transfer && !IsProbe(m) then Max(at, ChunkEnd(k, m.offset)) else at
  }

  function Progress(at: nat, k: Carry, m: Message): nat {
    if m.InstallSnapshot? && k.transfer then Reached(at, k, m) else 0
  }

  /** One request and its reply, both delivered. */
  function Round(pr: Pair, k: Carry): Pair {
    var req := Request(pr, k);
    var f := OnMessage(pr.follower, req, Progress(pr.at, k, req));
    match Reply(f.actions)
    case None => Pair(pr.leader, f.state, Reached(pr.at, k, req))
    case Some(m) => Pair(OnMessage(pr.leader, m, 0).state, f.state, Reached(pr.at, k, req))
  }

  function Rounds(pr: Pair, k: Carry, n: nat): Pair
    decreases n
  {
    if n == 0 then pr else Rounds(Round(pr, k), k, n - 1)
  }

  function MatchOf(pr: Pair): nat {
    At(pr.leader.matchIndex, pr.follower.me, 0)
  }

  function NextOf(pr: Pair): nat {
    At(pr.leader.nextIndex, pr.follower.me, 1)
  }

  /** A leader and a follower of its term, in a protocol state. */
  ghost predicate Linked(p: P.Proto, pr: Pair) {
    && P.Inv(p) && NodeOk(p, pr.leader.me, pr.leader) && NodeOk(p, pr.follower.me, pr.follower)
    && pr.leader.role == Leader && pr.leader.me != pr.follower.me && pr.leader.term == pr.follower.term != MAX_TERM
    && Settled(pr.leader)
  }

  /** All of the leader's log is matched, and that is where the leader goes on. */
  predicate Caught(pr: Pair) {
    MatchOf(pr) == LastIndex(pr.leader.log) && NextOf(pr) == LastIndex(pr.leader.log) + 1
  }

  /** What is left to do: entries to match first, then how far `nextIndex` may back off, then state to ship. */
  datatype Left = Left(entries: nat, steps: nat, state: nat)

  function LeftOf(pr: Pair, k: Carry): Left {
    var last := LastIndex(pr.leader.log);
    var from := At(pr.leader.snapshotCursor, pr.follower.me, 0);
    Left(last - Min(MatchOf(pr), last),
         if NextOf(pr) <= MatchOf(pr) then last + 2 else NextOf(pr),
         if pr.follower.me in pr.leader.snapshotCursor then k.end - Min(from, k.end) else k.end + 1)
  }

  predicate Closer(a: Left, b: Left) {
    || b.entries < a.entries
    || (b.entries == a.entries && b.steps < a.steps)
    || (b.entries == a.entries && b.steps == a.steps && b.state < a.state)
  }

  // ---------- facts of a linked pair ----------

  /** What is acknowledged in the current term is held. */
  lemma AckedHeld(p: P.Proto, n: NodeId, t: Term, i: nat)
    requires P.Inv(p) && P.Acked(p, n, t, i)
    ensures n in p.full && n in p.term && t in p.logs && i <= |p.logs[t]|
    ensures p.term[n] == t ==> P.Agree(p.full[n], p.logs[t], i)
  {
    var a :| a in p.acks && a.node == n && a.term == t && i <= a.index;
    if p.term[n] == t { P.AgreeLess(p.full[n], p.logs[t], a.index, i); }
  }

  lemma PairFacts(p: P.Proto, pr: Pair)
    requires Linked(p, pr)
    ensures var n, q, t := pr.leader.me, pr.follower.me, pr.leader.term;
            && n in p.full && q in p.full && t in p.logs && p.full[n] == p.logs[t] && t in p.leaders &&
               p.leaders[t] == n
            && Represents(pr.leader.log, p.full[n]) && Represents(pr.follower.log, p.full[q])
            && LastIndex(pr.leader.log) == |p.full[n]| && LastIndex(pr.follower.log) == |p.full[q]|
            && MatchOf(pr) <= |p.full[n]| && 1 <= NextOf(pr) <= |p.full[n]| + 1
            && P.Agree(p.full[q], p.full[n], MatchOf(pr))
            && P.Agree(p.full[q], p.full[n], pr.follower.commitIndex)
            && pr.follower.log.baseIndex <= pr.follower.commitIndex
            && pr.leader.log.baseIndex <= |p.full[n]|
            && q in pr.leader.peers && n in pr.follower.peers
  {
    hide P.Inv, Represents, CommitKnown, LastIndex;
    var n, q, t := pr.leader.me, pr.follower.me, pr.leader.term;
    LeaderFacts(p, t);
    RepresentsEnd(pr.leader.log, p.full[n]);
    RepresentsEnd(pr.follower.log, p.full[q]);
    if 0 < MatchOf(pr) { AckedHeld(p, q, t, MatchOf(pr)); }
    CommitAgrees(p, q, pr.follower);
  }

  // ---------- entries ----------

  lemma ReplyFirst(m: NodeId, r: Message, rest: seq<Action>)
    ensures Reply([SendTo(m, r), ResetElectionTimer] + rest) == Some(r)
    ensures SendTo(m, r) in [SendTo(m, r), ResetElectionTimer] + rest
  {
    var a := [SendTo(m, r), ResetElectionTimer] + rest;
    assert a[0] == SendTo(m, r);
  }

  /** How a follower of the same term answers entries: it takes them exactly when they follow on. */
  lemma FollowerAnswers(p: P.Proto, q: NodeId, f: NodeState, m: Message)
    requires P.Inv(p) && NodeOk(p, q, f) && m.AppendEntries? && AppendOk(p, q, m) && m.term == f.term != MAX_TERM &&
             m.leader in f.peers
    ensures var r := OnMessage(f, m, 0);
            var answer := if Consistent(f, m) then AppendEntriesResp(f.term, true, q, m.prevLogIndex + |m.entries|)
                          else AppendEntriesResp(f.term, false, q, LastIndex(f.log));
            Reply(r.actions) == Some(answer) && SendTo(m.leader, answer) in r.actions && r.state.term == f.term
  {
    hide P.Inv, NodeOk, AppendOk, AppendAt, Consistent, LastIndex, EntriesFrom, Drain;
    NodeMe(p, q, f);
    var s1 := Follow(f, m.term, m.leader);
    assert Consistent(s1, m) <==> Consistent(f, m) by { FollowConsistent(f, m); }
    if Consistent(f, m) { NeverRefused(p, q, f, m); }
    var r := HandleAppendEntries(f, m);
    ReplyFirst(m.leader, r.actions[0].msg, Drain(r.state).actions);
    DrainKeepsTerm(r.state);
  }

  lemma DrainKeepsTerm(s: NodeState)
    ensures Drain(s).state.term == s.term
  {
  }

  lemma FollowConsistent(f: NodeState, m: Message)
    requires m.AppendEntries? && m.term == f.term
    ensures Consistent(Follow(f, m.term, m.leader), m) <==> Consistent(f, m)
  {
  }

  /** What the leader notes from the reply to its entries. */
  lemma LeaderNotes(l: NodeState, q: NodeId, success: bool, i: LogIndex)
    requires l.role == Leader && q in l.peers && l.term != MAX_TERM
    ensures var l' := OnMessage(l, AppendEntriesResp(l.term, success, q, i), 0).state;
            && l'.log == l.log && l'.term == l.term && l'.role == Leader && l'.me == l.me && l'.peers == l.peers
            && At(l'.matchIndex, q, 0) == (if success then Matched(l, q, i) else At(l.matchIndex, q, 0))
            && At(l'.nextIndex, q, 1) ==
                 (if success then Matched(l, q, i) + 1 else At(BackOff(l, q, i).nextIndex, q, 1))
  {
    hide CommitCandidate, TermAt, ReplicateTo, LastIndex, DrainFrom;
  }

  lemma RequestOk(p: P.Proto, pr: Pair, k: Carry)
    requires Linked(p, pr)
    ensures MessageOk(p, pr.follower.me, Request(pr, k))
    ensures var m := Request(pr, k);
            if pr.leader.log.baseIndex < NextOf(pr)
            then m.AppendEntries? && m.prevLogIndex == NextOf(pr) - 1 && m.term == pr.leader.term &&
            m.leader == pr.leader.me
                 && (NextOf(pr) <= LastIndex(pr.leader.log) ==> m.entries != [])
                 && (LastIndex(pr.leader.log) < NextOf(pr) ==> m.entries == [])
                 && m.prevLogIndex + |m.entries| <= LastIndex(pr.leader.log)
                 && (0 < m.prevLogIndex ==> TermAt(pr.leader.log, m.prevLogIndex) == Some(m.prevLogTerm))
            else m == Shipped(pr.leader, pr.follower.me, k)
  {
    hide P.Inv, NodeOk, Represents, LastIndex, TermAt, SliceBounded, CommitKnown, AppendOk, InstallOk;
    PairFacts(p, pr);
    var l, q := pr.leader, pr.follower.me;
    if l.log.baseIndex < NextOf(pr) {
      RepresentsSlice(l.log, p.full[l.me], NextOf(pr), MAX_APPEND_ENTRIES, MAX_APPEND_BYTES);
      RepresentsGet(l.log, p.full[l.me], NextOf(pr) - 1);
      BuildAppendOk(p, l.me, l, q);
    } else {
      var snap, from := Snapshot(l.log.baseIndex, l.log.baseTerm, k.data), At(l.snapshotCursor, q, 0);
      assert SnapshotRests(l.log, Some(snap));
      var env := Env(true, 0, [], map[q := Chunk(k.bytes(from), k.end <= ChunkEnd(k, from))]);
      SnapshotMessageOk(p, l.me, l, snap, k.transfer, q, env);
    }
  }

  /** Entries that start within the matched part always follow on. */
  lemma MatchedFollows(p: P.Proto, pr: Pair, m: Message)
    requires Linked(p, pr) && m.AppendEntries? && m.prevLogIndex <= MatchOf(pr)
    requires 0 < m.prevLogIndex ==> TermAt(pr.leader.log, m.prevLogIndex) == Some(m.prevLogTerm)
    ensures Consistent(pr.follower, m)
  {
    hide P.Inv, NodeOk, Represents, LastIndex, TermAt, CommitKnown;
    PairFacts(p, pr);
    if 0 < m.prevLogIndex {
      var n, q := pr.leader.me, pr.follower.me;
      RepresentsGet(pr.leader.log, p.full[n], m.prevLogIndex);
      RepresentsGet(pr.follower.log, p.full[q], m.prevLogIndex);
      P.AgreeAt(p.full[q], p.full[n], MatchOf(pr), m.prevLogIndex - 1);
    }
  }

  /** The result of a round: the leader's log is as it was, and less is left to do. */
  ghost predicate Advanced(p: P.Proto, p': P.Proto, pr: Pair, pr': Pair, k: Carry) {
    && Linked(p', pr') && P.Extends(p, p') && pr'.leader.log == pr.leader.log
    && pr'.leader.me == pr.leader.me && pr'.follower.me == pr.follower.me
    && Closer(LeftOf(pr, k), LeftOf(pr', k))
  }

  /** Both sides of a round, seen from the protocol. */
  lemma RoundFollows(p: P.Proto, pr: Pair, m: Message, progress: nat, reply: Message, at: nat) returns (p': P.Proto)
    requires Linked(p, pr) && MessageOk(p, pr.follower.me, m)
    requires var f := OnMessage(pr.follower, m, progress);
             SendTo(pr.leader.me, reply) in f.actions && f.state.term == pr.follower.term
    requires var l := OnMessage(pr.leader, reply, 0).state; l.role == Leader && l.term == pr.leader.term
    ensures var pr' := Pair(OnMessage(pr.leader, reply, 0).state, OnMessage(pr.follower, m, progress).state, at);
            Linked(p', pr') && P.Extends(p, p') && pr'.leader.me == pr.leader.me && pr'.follower.me == pr.follower.me
  {
    hide Settled, P.Inv, NodeOk, MessageOk, OnMessage, P.Moved, P.Extends;
    var n, q := pr.leader.me, pr.follower.me;
    var f := OnMessage(pr.follower, m, progress);
    var p1 := OnMessageOk(p, q, pr.follower, m, progress);
    assert ActionOk(p1, f.state, SendTo(n, reply));
    OtherNodeStays(p, p1, q, n, pr.leader);
    p' := OnMessageOk(p1, n, pr.leader, reply, 0);
    OtherNodeStays(p1, p', n, q, f.state);
    NodeMe(p', n, OnMessage(pr.leader, reply, 0).state);
    NodeMe(p', q, f.state);
    MovedExtends(p, p1, q);
    MovedExtends(p1, p', n);
    MessageSettles(pr.leader, reply, 0);
    P.ExtendsTrans(p, p1, p');
  }

  lemma EntriesOk(p: P.Proto, q: NodeId, m: Message)
    requires MessageOk(p, q, m) && m.AppendEntries?
    ensures AppendOk(p, q, m)
  {
  }

  lemma AppendRound(p: P.Proto, pr: Pair, k: Carry) returns (p': P.Proto)
    requires Linked(p, pr) && !Caught(pr) && pr.leader.log.baseIndex < NextOf(pr)
    ensures Advanced(p, p', pr, Round(pr, k), k)
  {
    hide P.Inv, NodeOk, Represents, LastIndex, OnMessage, CommitKnown, Consistent, Request, AppendOk, MessageOk, LeftOf,
         Round;
    RequestOk(p, pr, k);
    PairFacts(p, pr);
    var m, q := Request(pr, k), pr.follower.me;
    EntriesOk(p, q, m);
    FollowerAnswers(p, q, pr.follower, m);
    if Consistent(pr.follower, m) {
      p' := AnswerRound(p, pr, k, m, true, m.prevLogIndex + |m.entries|);
    } else {
      if m.prevLogIndex <= MatchOf(pr) { MatchedFollows(p, pr, m); }
      p' := AnswerRound(p, pr, k, m, false, LastIndex(pr.follower.log));
    }
  }

  /** A round with entries brings the pair closer, whether they are taken or the leader has to back off. */
  lemma AnswerRound(p: P.Proto, pr: Pair, k: Carry, m: Message, taken: bool, i: LogIndex) returns (p': P.Proto)
    requires Linked(p, pr) && !Caught(pr) && MatchOf(pr) <= LastIndex(pr.leader.log) &&
             pr.follower.me in pr.leader.peers
    requires 1 <= NextOf(pr) <= LastIndex(pr.leader.log) + 1
    requires m == Request(pr, k) && m.AppendEntries? && MessageOk(p, pr.follower.me, m) &&
             m.prevLogIndex == NextOf(pr) - 1
    requires if taken then i == m.prevLogIndex + |m.entries| <= LastIndex(pr.leader.log) &&
             (NextOf(pr) <= LastIndex(pr.leader.log) ==> m.entries != [])
             else MatchOf(pr) < m.prevLogIndex && MatchOf(pr) <= i
    requires var r := OnMessage(pr.follower, m, 0);
             var answer := AppendEntriesResp(pr.leader.term, taken, pr.follower.me, i);
             Reply(r.actions) == Some(answer) && SendTo(pr.leader.me, answer) in r.actions &&
             r.state.term == pr.follower.term
    ensures Advanced(p, p', pr, Round(pr, k), k)
  {
    hide P.Inv, NodeOk, LastIndex, OnMessage, Request, MessageOk;
    LeaderNotes(pr.leader, pr.follower.me, taken, i);
    p' := RoundFollows(p, pr, m, 0, AppendEntriesResp(pr.leader.term, taken, pr.follower.me, i), pr.at);
  }

  // ---------- snapshots ----------

  /** A follower of the same term answers how far its state is, and for the last chunk what it installed. */
  lemma InstallAnswers(f: NodeState, m: Message, progress: nat) returns (i: LogIndex)
    requires m.InstallSnapshot? && m.term == f.term != MAX_TERM && m.leader in f.peers
    ensures var r := OnMessage(f, m, progress); var answer := InstallSnapshotResp(f.term, true, f.me, progress, i);
            && (if m.done then m.lastIndex <= i else i == 0)
            && Reply(r.actions) == Some(answer) && SendTo(m.leader, answer) in r.actions && r.state.term == f.term
  {
    hide KeepsSuffix, Drain, CompactTo;
    var r := HandleInstallSnapshot(f, m, progress);
    i := r.actions[0].msg.installedIndex;
    ReplyFirst(m.leader, r.actions[0].msg, Drain(r.state).actions);
    DrainKeepsTerm(r.state);
  }

  lemma LeaderNotesInstall(l: NodeState, q: NodeId, progress: nat, i: LogIndex)
    requires l.role == Leader && q in l.peers && l.term != MAX_TERM
    ensures var l' := OnMessage(l, InstallSnapshotResp(l.term, true, q, progress, i), 0).state;
            && l'.log == l.log && l'.term == l.term && l'.role == Leader && l'.me == l.me && l'.peers == l.peers
            && (if 0 < i
                then At(l'.matchIndex, q, 0) == Matched(l, q, i) && At(l'.nextIndex, q, 1) == Matched(l, q, i) + 1
                else l'.matchIndex == l.matchIndex && l'.nextIndex == l.nextIndex &&
                     l'.snapshotCursor == l.snapshotCursor[q := progress])
  {
    hide CommitCandidate, TermAt, ReplicateTo, LastIndex, DrainFrom;
  }

  /** What is shipped: the whole snapshot, the probe, or the chunk at the cursor. */
  lemma ShippedIs(l: NodeState, q: NodeId, k: Carry)
    requires Carries(k)
    ensures var m := Shipped(l, q, k); var from := At(l.snapshotCursor, q, 0);
            && m.InstallSnapshot? && m.term == l.term && m.leader == l.me && m.lastIndex == l.log.baseIndex
            && (if !k.transfer then m.done
                else if q !in l.snapshotCursor then IsProbe(m)
                else !IsProbe(m) && m.offset == from && (m.done <==> k.end <= ChunkEnd(k, from)))
  {
  }

  lemma InstallRound(p: P.Proto, pr: Pair, k: Carry) returns (p': P.Proto)
    requires Carries(k) && Linked(p, pr) && NextOf(pr) <= pr.leader.log.baseIndex
    ensures Advanced(p, p', pr, Round(pr, k), k)
  {
    hide P.Inv, NodeOk, Represents, LastIndex, OnMessage, CommitKnown, ReplicateTo, MessageOk, Shipped, Request;
    RequestOk(p, pr, k);
    PairFacts(p, pr);
    var m, q := Request(pr, k), pr.follower.me;
    ShippedIs(pr.leader, q, k);
    var progress := Progress(pr.at, k, m);
    var i := InstallAnswers(pr.follower, m, progress);
    LeaderNotesInstall(pr.leader, q, progress, i);
    p' := RoundFollows(p, pr, m, progress, InstallSnapshotResp(pr.follower.term, true, q, progress, i),
                       Reached(pr.at, k, m));
  }

  // ---------- rounds ----------

  /** The three measures as one number, the first ones weighing most. */
  function Weigh(a: Left, w: nat, z: nat): nat {
    Times(Times(a.entries, w) + a.steps, z) + a.state
  }

  function Times(a: nat, b: nat): nat {
    a * b
  }

  function Rank(pr: Pair, k: Carry): nat {
    Weigh(LeftOf(pr, k), LastIndex(pr.leader.log) + 3, k.end + 2)
  }

  lemma WeighLess(a: Left, b: Left, w: nat, z: nat)
    requires Closer(a, b) && b.steps < w && b.state < z
    ensures Weigh(b, w, z) < Weigh(a, w, z)
  {
    hide Times;
    if b.entries < a.entries { LessTimes(b.entries, a.entries, w); }
    var x, y := Times(b.entries, w) + b.steps, Times(a.entries, w) + a.steps;
    if x < y { LessTimes(x, y, z); }
  }

  lemma CloserRank(pr: Pair, pr': Pair, k: Carry)
    requires Closer(LeftOf(pr, k), LeftOf(pr', k)) && pr'.leader.log == pr.leader.log
    requires LeftOf(pr', k).steps <= LastIndex(pr.leader.log) + 2
    ensures Rank(pr', k) < Rank(pr, k)
  {
    hide LastIndex, Weigh, Closer;
    WeighLess(LeftOf(pr, k), LeftOf(pr', k), LastIndex(pr.leader.log) + 3, k.end + 2);
  }

  lemma LessTimes(a: nat, b: nat, w: nat)
    requires a < b
    ensures Times(a, w) + w <= Times(b, w)
  {
    assert (a + 1) * w <= b * w;
  }

  /** From a linked pair, a bounded number of rounds brings the follower to the leader's last entry. */
  lemma {:induction false} RoundsEnd(p: P.Proto, pr: Pair, k: Carry) returns (n: nat, p': P.Proto)
    requires Carries(k) && Linked(p, pr)
    ensures n <= Rank(pr, k)
    ensures var pr' := Rounds(pr, k, n); Linked(p', pr') && pr'.leader.log == pr.leader.log && Caught(pr')
    decreases Rank(pr, k)
  {
    hide P.Inv, NodeOk, LastIndex, Round, Rank, LeftOf, Closer, Represents, P.Extends, Carries, Caught, Settled;
    if Caught(pr) {
      n, p' := 0, p;
    } else {
      var p1: P.Proto;
      if pr.leader.log.baseIndex < NextOf(pr) {
        p1 := AppendRound(p, pr, k);
      } else {
        p1 := InstallRound(p, pr, k);
      }
      var pr1 := Round(pr, k);
      LeftBound(p1, pr1, k);
      CloserRank(pr, pr1, k);
      n, p' := RoundsEnd(p1, pr1, k);
      n := n + 1;
    }
  }

  // ---------- the commit index ----------

  /** Entries that follow on move a follower's commit index, and with it what is applied. */
  lemma FollowerCommits(p: P.Proto, q: NodeId, f: NodeState, m: Message)
    requires P.Inv(p) && NodeOk(p, q, f) && m.AppendEntries? && AppendOk(p, q, m) && m.term == f.term != MAX_TERM &&
             m.leader in f.peers && Consistent(f, m)
    ensures var f' := OnMessage(f, m, 0).state; var reach := Min(m.leaderCommit, m.prevLogIndex + |m.entries|);
            f'.lastApplied == f'.commitIndex == Max(f.commitIndex, reach)
  {
    hide P.Inv, AppendOk, AppendAt, Consistent, LastIndex, EntriesFrom, DrainFrom, PeersOf, CommitKnown, Represents;
    var s1 := Follow(f, m.term, m.leader);
    assert Consistent(s1, m) by { FollowConsistent(f, m); }
    NeverRefused(p, q, f, m);
  }

  lemma LeaderStays(l: NodeState, q: NodeId)
    requires l.role == Leader && q in l.peers && l.term != MAX_TERM && Settled(l)
    requires At(l.matchIndex, q, 0) == LastIndex(l.log) && l.lastApplied <= l.commitIndex
    ensures var l' := OnMessage(l, AppendEntriesResp(l.term, true, q, LastIndex(l.log)), 0).state;
            l'.commitIndex == l.commitIndex
  {
    hide CommitCandidate, TermAt, ReplicateTo, LastIndex, DrainFrom;
    ViewSettles(l, NoteMatch(l, q, LastIndex(l.log)));
  }

  /** One more round, and the follower has committed and applied all that the leader has committed. */
  lemma CommitRound(p: P.Proto, pr: Pair, k: Carry) returns (p': P.Proto)
    requires Linked(p, pr) && Caught(pr)
    ensures var pr' := Round(pr, k);
            && Linked(p', pr') && pr'.leader.log == pr.leader.log && Caught(pr')
            && pr'.leader.commitIndex == pr.leader.commitIndex
            && pr'.leader.commitIndex <= pr'.follower.commitIndex == pr'.follower.lastApplied
  {
    hide P.Inv, NodeOk, Represents, LastIndex, OnMessage, CommitKnown, Consistent, AppendOk, MessageOk, Shipped,
         Settled;
    RequestOk(p, pr, k);
    PairFacts(p, pr);
    var m, q, last := Request(pr, k), pr.follower.me, LastIndex(pr.leader.log);
    EntriesOk(p, q, m);
    MatchedFollows(p, pr, m);
    FollowerAnswers(p, q, pr.follower, m);
    FollowerCommits(p, q, pr.follower, m);
    LeaderNotes(pr.leader, q, true, last);
    CommitOrder(p, pr.leader);
    LeaderStays(pr.leader, q);
    p' := RoundFollows(p, pr, m, 0, AppendEntriesResp(pr.leader.term, true, q, last), pr.at);
  }

  lemma CommitOrder(p: P.Proto, s: NodeState)
    requires NodeOk(p, s.me, s)
    ensures s.lastApplied <= s.commitIndex <= LastIndex(s.log)
  {
    hide PeersOf, CommitKnown, LeaderOk, CandidateOk, VoteOk, Represents, LastIndex;
    RepresentsEnd(s.log, p.full[s.me]);
  }

  lemma LeftBound(p: P.Proto, pr: Pair, k: Carry)
    requires Linked(p, pr)
    ensures LeftOf(pr, k).steps <= LastIndex(pr.leader.log) + 2
  {
    hide P.Inv, NodeOk, LastIndex, Represents;
    PairFacts(p, pr);
  }

  // ---------- followers of an older term ----------

  /** A follower that has not heard of the leader's term answers as if it had. */
  lemma RoundRaises(pr: Pair, k: Carry)
    requires pr.follower.term < pr.leader.term <= pr.follower.term + MAX_TERM_JUMP && pr.leader.term != MAX_TERM &&
             pr.leader.me in pr.follower.peers
    ensures Round(pr, k) == Round(pr.(follower := StepDown(pr.follower, pr.leader.term)), k)
  {
    hide Drain, HandleAppendEntries, HandleInstallSnapshot, StepDown, SliceBounded, TermAt, ChunkEnd;
    var f, t := pr.follower, pr.leader.term;
    var f1 := StepDown(f, t);
    StepDownShape(f, t);
    var m := Request(pr, k);
    assert Request(pr.(follower := f1), k) == m;
    assert m.term == t && m.Sender() == pr.leader.me;
    ResetsTimer(f1, m, Progress(pr.at, k, m));
  }

  lemma StepDownShape(f: NodeState, t: Term)
    requires f.term < t
    ensures StepDown(f, t).me == f.me && StepDown(f, t).peers == f.peers && StepDown(f, t).term == t &&
            StepDown(f, t).log == f.log
  {
  }

  lemma ResetsTimer(f: NodeState, m: Message, progress: nat)
    requires (m.AppendEntries? || m.InstallSnapshot?) && f.term == m.term
    ensures ResetElectionTimer in Dispatch(f, m, progress).actions
  {
    hide AcceptEntries, InstallDone, Follow;
    var a := Dispatch(f, m, progress).actions;
    assert a[1] == ResetElectionTimer;
  }

  // ---------- in every run ----------

  lemma HoldsAll(p: P.Proto, pr: Pair)
    requires Linked(p, pr) && MatchOf(pr) == LastIndex(pr.leader.log)
    ensures LastIndex(pr.leader.log) <= LastIndex(pr.follower.log)
    ensures SameUpTo(pr.follower.log, pr.leader.log, LastIndex(pr.leader.log))
  {
    hide P.Inv, NodeOk, LastIndex, Represents;
    PairFacts(p, pr);
    HistoriesAgree(pr.follower.log, pr.leader.log, p.full[pr.follower.me], p.full[pr.leader.me],
                   LastIndex(pr.leader.log));
  }

  lemma PairLinked(c: Cluster, p: P.Proto, n: NodeId, q: NodeId, t: Term, at: nat) returns (p': P.Proto, pr: Pair)
    requires Sim(c, p) && Leads(c, n, t) && q in c.nodes && q != n && c.nodes[q].raft.term <= t != MAX_TERM
    requires Settled(c.nodes[n].raft)
    ensures var f := c.nodes[q].raft;
            pr == Pair(c.nodes[n].raft, if f.term < t then StepDown(f, t) else f, at) && Linked(p', pr)
    ensures n in c.nodes[q].raft.peers && c.nodes[n].raft.me == n && c.nodes[q].raft.me == q
  {
    hide Settled, P.Inv, MessageOk, DeliveryOk, DiskRests, StepDown, P.Moved, Represents, CommitKnown, LeaderOk,
         CandidateOk;
    var l, f := c.nodes[n].raft, c.nodes[q].raft;
    assert NodeOk(p, n, l) && NodeOk(p, q, f);
    p' := p;
    pr := Pair(l, f, at);
    if f.term < t {
      p' := StepDownOk(p, q, f, t);
      OtherNodeStays(p, p', q, n, l);
      StepDownShape(f, t);
      pr := Pair(l, StepDown(f, t), at);
    }
  }

  /**
   In every run, once a leader's term is stable and one that messages may carry, a bounded number of
   rounds with any one other node ends with that node acknowledged up to the leader's last entry,
   holding the same entries as the leader up to it, and having committed and applied all that the
   leader has committed.
   */
  lemma CatchesUp(trace: seq<Cluster>, i: nat, n: NodeId, q: NodeId, t: Term, at: nat, k: Carry) returns (rounds: nat)
    requires Carries(k) && Run(trace) && i < |trace| && Leads(trace[i], n, t) && q in trace[i].nodes && q != n
    requires trace[i].nodes[q].raft.term <= t <= trace[i].nodes[q].raft.term + MAX_TERM_JUMP && t != MAX_TERM
    ensures rounds <= Rank(Pair(trace[i].nodes[n].raft, trace[i].nodes[q].raft, at), k) + 1
    ensures var pr := Pair(trace[i].nodes[n].raft, trace[i].nodes[q].raft, at);
            var pr' := Rounds(pr, k, rounds); var last := LastIndex(pr.leader.log);
            && pr'.leader.log == pr.leader.log && MatchOf(pr') == last
            && last <= LastIndex(pr'.follower.log) && SameUpTo(pr'.follower.log, pr.leader.log, last)
            && pr'.leader.commitIndex <= pr'.follower.commitIndex == pr'.follower.lastApplied
  {
    hide Run, Sim, Linked, LastIndex, Round, Rounds, SameUpTo, StepDown, LeftOf, Carries, Rank, Caught, Settled;
    var p, q0 := TwoMoments(trace, i, i);
    RunSettled(trace, i);
    var p1, pr1 := PairLinked(trace[i], p, n, q, t, at);
    rounds := RoundsCommit(p1, pr1, k);
    var pr := Pair(trace[i].nodes[n].raft, trace[i].nodes[q].raft, at);
    if pr.follower.term < t {
      StepDownShape(pr.follower, t);
      RoundRaises(pr, k);
      SameRank(pr, pr1, k);
      SameStart(pr, pr1, k, rounds);
    }
  }

  lemma RoundsCommit(p: P.Proto, pr: Pair, k: Carry) returns (rounds: nat)
    requires Carries(k) && Linked(p, pr)
    ensures 0 < rounds <= Rank(pr, k) + 1
    ensures var pr' := Rounds(pr, k, rounds); var last := LastIndex(pr.leader.log);
            && pr'.leader.log == pr.leader.log && MatchOf(pr') == last
            && last <= LastIndex(pr'.follower.log) && SameUpTo(pr'.follower.log, pr.leader.log, last)
            && pr'.leader.commitIndex <= pr'.follower.commitIndex == pr'.follower.lastApplied
  {
    hide Linked, LastIndex, Round, Rounds, SameUpTo, LeftOf, Carries, Rank;
    var n, p1 := RoundsEnd(p, pr, k);
    var pr1 := Rounds(pr, k, n);
    var p2 := CommitRound(p1, pr1, k);
    RoundsLast(pr, k, n);
    HoldsAll(p2, Round(pr1, k));
    rounds := n + 1;
  }

  lemma {:induction false} RoundsLast(pr: Pair, k: Carry, n: nat)
    ensures Rounds(pr, k, n + 1) == Round(Rounds(pr, k, n), k)
    decreases n
  {
    hide Round;
    if 0 < n {
      RoundsLast(Round(pr, k), k, n - 1);
    }
  }

  lemma SameStart(pr: Pair, pr1: Pair, k: Carry, n: nat)
    requires Round(pr1, k) == Round(pr, k) && 0 < n
    ensures Rounds(pr1, k, n) == Rounds(pr, k, n)
  {
  }

  lemma SameRank(pr: Pair, pr1: Pair, k: Carry)
    requires pr1.leader == pr.leader && pr1.follower.me == pr.follower.me
    ensures Rank(pr1, k) == Rank(pr, k)
  {
  }
}
