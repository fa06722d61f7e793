/** The history of a run that the safety argument refers to, and the invariant that ties it to the state.

    A reign is the tenure of the leader of one term: the log it was elected with and the log it has built.
    A ballot is the one vote a node cast in a term, with the voter's log at that moment.
    An ack is the longest prefix of a reign's log that a node has confirmed in that term. */
module RaftHistory {
  import opened Options
  import opened RaftTypes
  import opened RaftSpec
  import opened RaftSystem

  datatype Reign = Reign(leader: NodeId, electors: set<NodeId>, start: seq<Entry>, log: seq<Entry>)

  datatype Ballot = Ballot(candidate: NodeId, log: seq<Entry>)

  datatype Slot = Slot(node: NodeId, term: nat)

  datatype History = History(reigns: map<nat, Reign>, ballots: map<Slot, Ballot>, acks: map<Slot, nat>)

  function Extend(h: History, t: nat, e: Entry): History {
    if t in h.reigns then
      var r := h.reigns[t];
      h.(reigns := h.reigns[t := r.(log := r.log + [e])], acks := h.acks[Slot(r.leader, t) := |r.log| + 1])
    else h
  }

  function Confirm(h: History, k: Slot, n: nat): History {
    h.(acks := h.acks[k := if k in h.acks && h.acks[k] > n then h.acks[k] else n])
  }

  /** The last index that a request speaks of. */
  function Covered(a: AppendArgs): nat {
    a.prevLogIndex + |a.entries|
  }

  /** The history after an enabled action. */
  function Record(s: System, a: Action, h: History): History
    requires AllOk(s)
  {
    if !Enabled(s, a) then h
    else
      var st := s.nodes[a.n];
      match a
      case Timeout(n) =>
        if st.role.Leader? then h
        else h.(ballots := h.ballots[Slot(n, st.currentTerm + 1) := Ballot(n, st.log)])
      case ReceiveVoteRequest(n, vote) =>
        if HandleRequestVote(st, vote).1.granted && Slot(n, vote.term) !in h.ballots
        then h.(ballots := h.ballots[Slot(n, vote.term) := Ballot(vote.candidate, st.log)])
        else h
      case Win(n, term, diskOk) =>
        if st.role.Candidate? && st.currentTerm == term && diskOk
        then h.(reigns := h.reigns[term := Reign(n, st.elections[term], st.log, st.log + [Entry(term, None)])],
                acks := h.acks[Slot(n, term) := |st.log| + 1])
        else h
      case Submit(n, command, diskOk) =>
        if st.role.Leader? && diskOk then Extend(h, st.currentTerm, Entry(st.currentTerm, Some(command))) else h
      case ReceiveAppend(n, append, diskOk) =>
        if HandleAppendEntries(st, append, diskOk).1.success
        then Confirm(h, Slot(n, append.term), Covered(append))
        else h
      case _ => h
  }

  // ---- logs and reigns ----

  /** The prefix of `log` that ends at position `i` is a prefix of what the leader of that entry's term wrote. */
  ghost predicate SoundAt(h: History, log: seq<Entry>, i: nat)
    requires i < |log|
  {
    var t := log[i].term;
    t in h.reigns && i < |h.reigns[t].log| && log[..i + 1] == h.reigns[t].log[..i + 1]
  }

  ghost predicate Sound(h: History, log: seq<Entry>) {
    forall i :: 0 <= i < |log| ==> SoundAt(h, log, i)
  }

  ghost predicate TermsBelow(log: seq<Entry>, bound: nat) {
    forall i :: 0 <= i < |log| ==> log[i].term < bound
  }

  ghost predicate Quorum(servers: set<NodeId>, q: set<NodeId>) {
    q <= servers && 2 * |q| > |servers|
  }

  /** The shape of the log of the leader of term `t`: older entries, then its own. */
  ghost predicate ReignOk(h: History, t: nat)
    requires t in h.reigns
  {
    var r := h.reigns[t];
    && |r.start| < |r.log| && r.start == r.log[..|r.start|]
    && TermsBelow(r.start, t)
    && (forall i :: |r.start| <= i < |r.log| ==> r.log[i].term == t)
    && Sound(h, r.log)
  }

  ghost predicate Elected(s: System, h: History, t: nat)
    requires t in h.reigns
  {
    var r := h.reigns[t];
    && r.leader in s.nodes && s.nodes[r.leader].currentTerm >= t
    && Quorum(s.nodes.Keys, r.electors)
    && (forall e :: e in r.electors ==> Slot(e, t) in h.ballots && h.ballots[Slot(e, t)].candidate == r.leader)
    && Slot(r.leader, t) in h.acks && h.acks[Slot(r.leader, t)] == |r.log|
  }

  ghost predicate AllElected(s: System, h: History) {
    forall t :: t in h.reigns ==> Elected(s, h, t)
  }

  ghost predicate ReignsInv(s: System, h: History) {
    AllElected(s, h) && forall t :: t in h.reigns ==> ReignOk(h, t)
  }

  ghost predicate NodeLogOk(h: History, st: NodeState) {
    && Sound(h, st.log)
    && TermsBelow(st.log, st.currentTerm + 1)
    && (st.role.Candidate? ==> TermsBelow(st.log, st.currentTerm))
    && (st.role.Leader? ==> st.currentTerm in h.reigns
                            && h.reigns[st.currentTerm].leader == st.id && h.reigns[st.currentTerm].log == st.log)
    && (st.role.Candidate? ==> st.currentTerm in h.reigns ==> h.reigns[st.currentTerm].leader != st.id)
  }

  ghost predicate LogsInv(s: System, h: History) {
    forall n :: n in s.nodes ==> NodeLogOk(h, s.nodes[n])
  }

  // ---- votes ----

  ghost predicate BallotOk(s: System, h: History, k: Slot)
    requires k in h.ballots
  {
    var b := h.ballots[k];
    && k.node in s.nodes && k.term <= s.nodes[k.node].currentTerm
    && b.candidate in s.nodes && k.term <= s.nodes[b.candidate].currentTerm
    && Sound(h, b.log)
    && (s.nodes[b.candidate].role.Candidate? && s.nodes[b.candidate].currentTerm == k.term ==>
          UpToDate(LastTerm(s.nodes[b.candidate].log), |s.nodes[b.candidate].log|, b.log))
  }

  ghost predicate NodeVoteOk(h: History, st: NodeState) {
    && (st.votedFor.Some? ==> Slot(st.id, st.currentTerm) in h.ballots
                              && h.ballots[Slot(st.id, st.currentTerm)].candidate == st.votedFor.value)
    && (st.votedFor.None? ==> Slot(st.id, st.currentTerm) !in h.ballots)
    && (st.role.Candidate? ==> st.votedFor == Some(st.id))
  }

  ghost predicate CountOk(h: History, st: NodeState, t: nat)
    requires t in st.elections
  {
    && t <= st.currentTerm && (st.campaigning ==> t < st.currentTerm)
    && (forall e :: e in st.elections[t] ==>
          (e == st.id || e in st.peers)
          && (e != st.id ==> Slot(e, t) in h.ballots && h.ballots[Slot(e, t)].candidate == st.id))
  }

  ghost predicate VotesInv(s: System, h: History) {
    && (forall k :: k in h.ballots ==> BallotOk(s, h, k))
    && (forall n :: n in s.nodes ==> NodeVoteOk(h, s.nodes[n]))
    && (forall n, t :: n in s.nodes && t in s.nodes[n].elections ==> CountOk(h, s.nodes[n], t))
  }

  ghost predicate VoteMessageOk(s: System, h: History, m: Message) {
    match m
    case VoteRequest(to, vote) =>
      && to in s.nodes && vote.candidate in s.nodes
      && var c := s.nodes[vote.candidate];
         vote.term <= c.currentTerm
         && (c.role.Candidate? && c.currentTerm == vote.term ==>
               vote.lastLogIndex == |c.log| && vote.lastLogTerm == LastTerm(c.log))
    case VoteResponse(from, vote, granted) =>
      && from in s.nodes
      && (granted.granted ==> Slot(from, vote.term) in h.ballots
                              && h.ballots[Slot(from, vote.term)].candidate == vote.candidate)
    case _ => true
  }

  ghost predicate VoteMessagesInv(s: System, h: History) {
    forall m :: m in s.msgs ==> VoteMessageOk(s, h, m)
  }

  // ---- confirmed prefixes ----

  ghost predicate AckOk(s: System, h: History, k: Slot)
    requires k in h.acks
  {
    k.node in s.nodes && k.term in h.reigns && h.acks[k] <= |h.reigns[k.term].log|
    && k.term <= s.nodes[k.node].currentTerm
  }

  /** The first `n` entries of the reign of `t` are in the log every leader of a term in `(t, upto]` started from. */
  ghost predicate Survives(h: History, t: nat, n: nat, upto: nat)
    requires t in h.reigns && n <= |h.reigns[t].log|
  {
    forall u :: u in h.reigns && t < u <= upto ==> h.reigns[t].log[..n] <= h.reigns[u].start
  }

  /** A node keeps what it confirmed for as long as no later leader lacks it. */
  ghost predicate NodeKeeps(h: History, st: NodeState, t: nat)
    requires Slot(st.id, t) in h.acks && t in h.reigns && h.acks[Slot(st.id, t)] <= |h.reigns[t].log|
  {
    forall n {:trigger Survives(h, t, n, st.currentTerm)} ::
      0 <= n <= h.acks[Slot(st.id, t)] && Survives(h, t, n, st.currentTerm) ==>
      h.reigns[t].log[..n] <= st.log
  }

  /** The log shown when voting in term `k.term` still held what the voter had confirmed in term `t`. */
  ghost predicate BallotKeeps(h: History, k: Slot, t: nat)
    requires k in h.ballots && Slot(k.node, t) in h.acks
    requires t in h.reigns && h.acks[Slot(k.node, t)] <= |h.reigns[t].log|
  {
    forall n {:trigger Survives(h, t, n, k.term)} ::
      0 <= n <= h.acks[Slot(k.node, t)] && Survives(h, t, n, k.term) ==>
      h.reigns[t].log[..n] <= h.ballots[k].log
  }

  /** The leader of `u` started from everything that one of its electors had confirmed at an entry of term `t`. */
  ghost predicate LeaderKeeps(h: History, u: nat, e: NodeId, t: nat)
    requires u in h.reigns && Slot(e, t) in h.acks
    requires t in h.reigns && h.acks[Slot(e, t)] <= |h.reigns[t].log|
  {
    forall n {:trigger Survives(h, t, n, u - 1)} ::
      1 <= n <= h.acks[Slot(e, t)] && h.reigns[t].log[n - 1].term == t && t < u && Survives(h, t, n, u - 1) ==>
      h.reigns[t].log[..n] <= h.reigns[u].start
  }

  ghost predicate AcksOk(s: System, h: History) {
    forall k :: k in h.acks ==> AckOk(s, h, k)
  }

  ghost predicate NodesKeep(s: System, h: History)
    requires AcksOk(s, h) && AllOk(s)
  {
    forall k :: k in h.acks ==> NodeKeeps(h, s.nodes[k.node], k.term)
  }

  ghost predicate BallotsKeep(s: System, h: History)
    requires AcksOk(s, h)
  {
    forall k, t: nat :: k in h.ballots && k.term !in h.reigns && t < k.term && Slot(k.node, t) in h.acks ==>
      BallotKeeps(h, k, t)
  }

  ghost predicate LeadersKeep(s: System, h: History)
    requires AcksOk(s, h)
  {
    forall u, k :: u in h.reigns && k in h.acks && k.node in h.reigns[u].electors ==>
      LeaderKeeps(h, u, k.node, k.term)
  }

  ghost predicate AcksInv(s: System, h: History) {
    AllOk(s) && AcksOk(s, h) && NodesKeep(s, h) && BallotsKeep(s, h) && LeadersKeep(s, h)
  }

  // ---- replication and commitment ----

  function Holding(s: System, h: History, t: nat, n: nat): (r: set<NodeId>)
    ensures forall e :: e in r <==> e in s.nodes && Slot(e, t) in h.acks && h.acks[Slot(e, t)] >= n
  {
    set e | e in s.nodes.Keys && Slot(e, t) in h.acks && h.acks[Slot(e, t)] >= n
  }

  /** Index `n` is committed in term `t`: it holds an entry of that term confirmed by a quorum. */
  ghost predicate Committed(s: System, h: History, t: nat, n: nat) {
    && t in h.reigns && 1 <= n <= |h.reigns[t].log| && h.reigns[t].log[n - 1].term == t
    && Quorum(s.nodes.Keys, Holding(s, h, t, n))
  }

  /** `p` is a prefix of what was committed in some term up to `bound`. */
  ghost predicate CommittedBy(s: System, h: History, p: seq<Entry>, bound: nat) {
    p == [] || exists t: nat, n: nat :: t <= bound && Committed(s, h, t, n) && |p| <= n && p == h.reigns[t].log[..|p|]
  }

  ghost predicate AppendArgsOk(s: System, h: History, a: AppendArgs) {
    a.term in h.reigns && h.reigns[a.term].leader == a.leaderId &&
    var log := h.reigns[a.term].log;
    && a.prevLogIndex + |a.entries| <= |log|
    && a.entries == log[a.prevLogIndex..a.prevLogIndex + |a.entries|]
    && a.prevLogTerm == TermAt(log, a.prevLogIndex)
    && a.leaderCommit <= a.prevLogIndex + |a.entries|
    && CommittedBy(s, h, log[..a.leaderCommit], a.term)
  }

  ghost predicate AppendMessageOk(s: System, h: History, m: Message) {
    match m
    case AppendRequest(to, a) => to in s.nodes && to != a.leaderId && AppendArgsOk(s, h, a)
    case AppendResponse(from, a, r) =>
      from in s.nodes
      && (r.success ==>
            && AppendArgsOk(s, h, a) && r.term <= a.term
            && Slot(from, a.term) in h.acks && h.acks[Slot(from, a.term)] >= a.prevLogIndex + |a.entries|)
    case _ => true
  }

  ghost predicate AppendMessagesInv(s: System, h: History) {
    forall m :: m in s.msgs ==> AppendMessageOk(s, h, m)
  }

  /** What a leader believes about a peer is true. */
  ghost predicate ProgressOk(h: History, st: NodeState, p: NodeId)
    requires Ok(st) && st.role.Leader? && p in st.peers
  {
    && (st.matchIndex[p] > 0 ==> Slot(p, st.currentTerm) in h.acks
                                 && h.acks[Slot(p, st.currentTerm)] >= st.matchIndex[p])
    && st.nextIndex[p] <= |st.log| + 1
  }

  ghost predicate ProgressInv(s: System, h: History)
    requires AllOk(s)
  {
    forall n, p :: n in s.nodes && s.nodes[n].role.Leader? && p in s.nodes[n].peers ==> ProgressOk(h, s.nodes[n], p)
  }

  ghost predicate NodeCommitOk(s: System, h: History, st: NodeState)
    requires Ok(st)
  {
    && CommittedBy(s, h, st.log[..st.commitIndex], st.currentTerm)
    && st.applied == Span(st.log, 0, st.lastApplied)
    && (st.wal.Some? ==> Rebuild([], st.wal.value) == st.log)
  }

  ghost predicate CommitInv(s: System, h: History)
    requires AllOk(s)
  {
    forall n :: n in s.nodes ==> NodeCommitOk(s, h, s.nodes[n])
  }

  ghost predicate Inv(s: System, h: History) {
    && AllOk(s)
    && ReignsInv(s, h) && LogsInv(s, h)
    && VotesInv(s, h) && VoteMessagesInv(s, h)
    && AcksInv(s, h)
    && AppendMessagesInv(s, h) && ProgressInv(s, h) && CommitInv(s, h)
  }

  // ---- histories only grow ----

  ghost predicate Grows(h: History, h': History) {
    && (forall t :: t in h.reigns ==>
          t in h'.reigns && h'.reigns[t] == h.reigns[t].(log := h'.reigns[t].log) && h.reigns[t].log <= h'.reigns[t].log)
    && (forall k :: k in h.ballots ==> k in h'.ballots && h'.ballots[k] == h.ballots[k])
    && (forall k :: k in h.acks ==> k in h'.acks && h.acks[k] <= h'.acks[k])
  }

  lemma SoundGrows(h: History, h': History, log: seq<Entry>)
    requires Grows(h, h') && Sound(h, log)
    ensures Sound(h', log)
  {
    forall i | 0 <= i < |log| ensures SoundAt(h', log, i) {
      assert SoundAt(h, log, i);
    }
  }

  lemma CommittedGrows(s: System, s': System, h: History, h': History, p: seq<Entry>, b: nat, b': nat)
    requires Grows(h, h') && s.nodes.Keys == s'.nodes.Keys && b <= b' && CommittedBy(s, h, p, b)
    ensures CommittedBy(s', h', p, b')
  {
    if p != [] {
      var t: nat, n: nat :| t <= b && Committed(s, h, t, n) && |p| <= n && p == h.reigns[t].log[..|p|];
      QuorumGrows(s.nodes.Keys, Holding(s, h, t, n), Holding(s', h', t, n));
      assert Committed(s', h', t, n);
    }
  }

  lemma QuorumGrows(servers: set<NodeId>, q: set<NodeId>, q': set<NodeId>)
    requires Quorum(servers, q) && q <= q' <= servers
    ensures Quorum(servers, q')
  {
    Subset(q, q');
  }

  lemma Subset(a: set<NodeId>, b: set<NodeId>)
    requires a <= b
    ensures |a| <= |b|
  {
    assert b == a + (b - a);
  }

  lemma QuorumsMeet(servers: set<NodeId>, p: set<NodeId>, q: set<NodeId>) returns (e: NodeId)
    requires Quorum(servers, p) && Quorum(servers, q)
    ensures e in p && e in q
  {
    if p * q == {} {
      assert |p + q| == |p| + |q|;
      Subset(p + q, servers);
    }
    e :| e in p * q;
  }

  lemma SurvivesShrinks(h: History, h': History, t: nat, n: nat, upto: nat, upto': nat)
    requires Grows(h, h') && t in h.reigns && n <= |h.reigns[t].log| && upto <= upto'
    requires Survives(h', t, n, upto')
    ensures Survives(h, t, n, upto) && h'.reigns[t].log[..n] == h.reigns[t].log[..n]
  {
  }
}
