/** Identifiers, log entries and wire messages shared by the Raft modules. */
module RaftTypes {
  import opened Basics

  type NodeId = nat
  type Term = nat
  type LogIndex = nat

  datatype LogEntry = LogEntry(term: Term, index: LogIndex, payload: seq<byte>)

  datatype Message =
    | RequestVote(term: Term, candidate: NodeId, lastLogIndex: LogIndex, lastLogTerm: Term)
    | RequestVoteResp(term: Term, granted: bool, voter: NodeId)
    | AppendEntries(term: Term, leader: NodeId, prevLogIndex: LogIndex, prevLogTerm: Term,
                    entries: seq<LogEntry>, leaderCommit: LogIndex)
    | AppendEntriesResp(term: Term, success: bool, responder: NodeId, matchIndex: LogIndex)
    | InstallSnapshot(term: Term, leader: NodeId, lastIndex: LogIndex, lastTerm: Term,
                      offset: nat, done: bool, data: seq<byte>)
    | InstallSnapshotResp(term: Term, success: bool, responder: NodeId,
                          nextOffset: nat, installedIndex: LogIndex)
  {
    function Sender(): NodeId {
      match this
      case RequestVote(_, c, _, _) => c
      case RequestVoteResp(_, _, v) => v
      case AppendEntries(_, l, _, _, _, _) => l
      case AppendEntriesResp(_, _, r, _) => r
      case InstallSnapshot(_, l, _, _, _, _, _) => l
      case InstallSnapshotResp(_, _, r, _, _) => r
    }
  }

  datatype PersistOp =
    | HardState(term: Term, votedFor: Option<NodeId>)
    | Append(entries: seq<LogEntry>)
    | TruncateFrom(from: LogIndex)
    | CompactThrough(through: LogIndex)

  datatype Snapshot = Snapshot(lastIndex: LogIndex, lastTerm: Term, data: seq<byte>)
}
