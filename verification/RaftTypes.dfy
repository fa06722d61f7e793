/** Values exchanged and stored by the Raft node: log entries, the four RPC payloads, the records of
    the durable log and the state of one node. Log indexes start at 1, as in the implementation, so
    the entry at index `i` is `log[i - 1]`; index 0 is the dummy entry of term 0. */
module RaftTypes {
  import opened Options

  type NodeId = nat

  datatype Role = Follower | Candidate | Leader

  /** One replicated entry. A missing command is the no-op of a fresh leader. */
  datatype Entry = Entry(term: nat, command: Option<string>)

  datatype VoteArgs = VoteArgs(term: nat, candidate: NodeId, lastLogIndex: nat, lastLogTerm: nat)

  datatype VoteReply = VoteReply(term: nat, granted: bool)

  datatype AppendArgs = AppendArgs(term: nat, leaderId: NodeId, prevLogIndex: nat, prevLogTerm: nat,
                                   entries: seq<Entry>, leaderCommit: nat)

  datatype AppendReply = AppendReply(term: nat, success: bool)

  /** One call of the apply callback (or the skipping of a no-op) at a log index. */
  datatype Applied = Applied(index: nat, entry: Entry)

  datatype WalOp = Noop | Data(payload: string)

  /** A record of the durable log: raft index, raft term and operation. */
  datatype WalRecord = WalRecord(index: nat, term: nat, op: WalOp)

  /** The state of one node.
      `campaigning` is true between `becomeCandidate` and `startElection`, which take the lock separately.
      `elections[t]` holds the voters counted by the election started in term `t`.
      `applied` is the history of applied positions.
      `wal` is the content of the durable log, or `None` once a write has failed. */
  datatype NodeState = NodeState(
    id: NodeId, peers: set<NodeId>,
    role: Role, currentTerm: nat, votedFor: Option<NodeId>, log: seq<Entry>,
    commitIndex: nat, lastApplied: nat,
    nextIndex: map<NodeId, nat>, matchIndex: map<NodeId, nat>,
    campaigning: bool, elections: map<nat, set<NodeId>>,
    applied: seq<Applied>, wal: Option<seq<WalRecord>>)
}
