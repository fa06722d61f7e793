/** A cluster with a fixed set of voters. Every action runs one critical section of one node; messages
    are kept for ever, so they may be delivered late, repeatedly or never. A reply is tied to the request
    it answers, as it is in an RPC. */
module RaftSystem {
  import opened Options
  import opened RaftTypes
  import opened RaftSpec

  datatype Message =
    | VoteRequest(to: NodeId, vote: VoteArgs)
    | VoteResponse(from: NodeId, vote: VoteArgs, granted: VoteReply)
    | AppendRequest(to: NodeId, append: AppendArgs)
    | AppendResponse(from: NodeId, append: AppendArgs, result: AppendReply)

  datatype System = System(nodes: map<NodeId, NodeState>, msgs: set<Message>)

  datatype Action =
    | Timeout(n: NodeId)
    | Campaign(n: NodeId)
    | ReceiveVoteRequest(n: NodeId, vote: VoteArgs)
    | ReceiveVoteReply(n: NodeId, from: NodeId, vote: VoteArgs, granted: VoteReply)
    | Win(n: NodeId, term: nat, diskOk: bool)
    | Submit(n: NodeId, command: string, diskOk: bool)
    | Send(n: NodeId, peer: NodeId)
    | ReceiveAppend(n: NodeId, append: AppendArgs, diskOk: bool)
    | ReceiveAppendReply(n: NodeId, from: NodeId, append: AppendArgs, result: AppendReply)

  function NewNode(n: NodeId, servers: set<NodeId>): NodeState {
    NodeState(n, servers - {n}, Follower, 0, None, [], 0, 0, map[], map[], false, map[], [], Some([]))
  }

  function Init(servers: set<NodeId>): (s: System)
    ensures AllOk(s)
  {
    System(map n | n in servers :: NewNode(n, servers), {})
  }

  predicate AllOk(s: System) {
    && (forall n :: n in s.nodes ==> Ok(s.nodes[n]) && s.nodes[n].id == n && s.nodes[n].peers == s.nodes.Keys - {n})
  }

  /** A leader sends to its peers; the slice of the log it takes must exist. */
  predicate CanSend(st: NodeState, peer: NodeId)
    requires Ok(st)
  {
    st.role.Leader? && peer in st.peers && st.nextIndex[peer] <= |st.log| + 1
  }

  /** When an action can happen: its node exists, its message was sent, its local condition holds. */
  predicate Enabled(s: System, a: Action)
    requires AllOk(s)
  {
    a.n in s.nodes &&
    var st := s.nodes[a.n];
    match a
    case Timeout(n) => !st.campaigning
    case Campaign(n) => st.campaigning
    case ReceiveVoteRequest(n, vote) => VoteRequest(n, vote) in s.msgs
    case ReceiveVoteReply(n, from, vote, granted) => vote.candidate == n && VoteResponse(from, vote, granted) in s.msgs
    case Win(n, term, diskOk) => term in st.elections && |st.elections[term]| >= Majority(st)
    case Submit(n, command, diskOk) => true
    case Send(n, peer) => CanSend(st, peer)
    case ReceiveAppend(n, append, diskOk) => AppendRequest(n, append) in s.msgs
    case ReceiveAppendReply(n, from, append, result) =>
      append.leaderId == n && from in st.peers && AppendResponse(from, append, result) in s.msgs
  }

  /** The node's next state and the messages it sends. */
  function Act(st: NodeState, a: Action): (r: (NodeState, set<Message>))
    requires Ok(st)
    requires a.Send? ==> CanSend(st, a.peer)
    requires a.ReceiveAppendReply? ==> a.from in st.peers
    ensures Follows(st, r.0)
  {
    match a
    case Timeout(n) => (BecomeCandidate(st), {})
    case Campaign(n) =>
      var (st', vote) := StartElection(st);
      (st', set p | p in st.peers :: VoteRequest(p, vote))
    case ReceiveVoteRequest(n, vote) =>
      var (st', granted) := HandleRequestVote(st, vote);
      (st', {VoteResponse(st.id, vote, granted)})
    case ReceiveVoteReply(n, from, vote, granted) => (OnVoteReply(st, from, vote, granted), {})
    case Win(n, term, diskOk) => (TryBecomeLeader(st, term, diskOk), {})
    case Submit(n, command, diskOk) => (Propose(st, command, diskOk), {})
    case Send(n, peer) => (st, {AppendRequest(peer, Replicate(st, peer))})
    case ReceiveAppend(n, append, diskOk) =>
      var (st', result) := HandleAppendEntries(st, append, diskOk);
      (st', {AppendResponse(st.id, append, result)})
    case ReceiveAppendReply(n, from, append, result) => (OnAppendReply(st, from, append, result), {})
  }

  function Replace(s: System, st: NodeState, sent: set<Message>): (r: System)
    requires AllOk(s) && st.id in s.nodes && Ok(st) && st.peers == s.nodes.Keys - {st.id}
    ensures AllOk(r) && r.nodes.Keys == s.nodes.Keys
  {
    var nodes := s.nodes[st.id := st];
    assert nodes.Keys == s.nodes.Keys;
    System(nodes, s.msgs + sent)
  }

  function Step(s: System, a: Action): (r: System)
    requires AllOk(s)
    ensures AllOk(r) && r.nodes.Keys == s.nodes.Keys
  {
    if !Enabled(s, a) then s
    else
      var (st, sent) := Act(s.nodes[a.n], a);
      Replace(s, st, sent)
  }

  /** The state after a run: any sequence of actions, disabled ones having no effect. */
  function Exec(servers: set<NodeId>, run: seq<Action>): (r: System)
    ensures AllOk(r) && r.nodes.Keys == servers
  {
    if run == [] then Init(servers) else Step(Exec(servers, run[..|run| - 1]), run[|run| - 1])
  }
}
