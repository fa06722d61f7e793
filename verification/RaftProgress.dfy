/** Progress is always possible: from every reachable state, as long as some majority of the servers is up, one of them can
    be elected, and whatever a client then submits can be applied by all of them, without a word from the others. */
module RaftProgress {
  import opened Options
  import opened RaftTypes
  import opened RaftSpec
  import opened RaftSystem
  import opened RaftLeader
  import opened RaftTheorems
  import opened RaftVotes
  import opened RaftCatchUp

  /** A leader, and none of the servers that are up is ahead of its term. */
  predicate InCharge(s: System, n: NodeId, up: set<NodeId>) {
    && AllOk(s) && n in up && up <= s.nodes.Keys && s.nodes[n].role.Leader?
    && forall m :: m in up ==> s.nodes[m].currentTerm <= s.nodes[n].currentTerm
  }

  /** The servers that are not up do nothing. */
  predicate Quiet(s: System, s': System, up: set<NodeId>) {
    s'.nodes.Keys == s.nodes.Keys && forall m :: m in s.nodes && m !in up ==> s'.nodes[m] == s.nodes[m]
  }

  lemma QuietTwice(s: System, s1: System, s': System, up: set<NodeId>)
    requires Quiet(s, s1, up) && Quiet(s1, s', up)
    ensures Quiet(s, s', up)
  {
  }

  // ---- replication to everybody ----

  /** The leader knows that the peers in `todo` hold its whole log, and is otherwise as before. */
  predicate Knows(st: NodeState, st': NodeState, todo: set<NodeId>) {
    && Ok(st) && Ok(st') && st.role.Leader? && st'.role.Leader? && st'.peers == st.peers && todo <= st.peers
    && st'.log == st.log && st'.currentTerm == st.currentTerm && st.commitIndex <= st'.commitIndex
    && (forall p :: p in st.peers ==>
          if p in todo then st'.matchIndex[p] >= |st.log| else st'.matchIndex[p] == st.matchIndex[p])
    && (todo == {} ==> st' == st)
    && (todo != {} && st.log != [] && Committable(st', |st.log|) ==> st'.commitIndex >= |st.log|)
  }

  /** The peers in `todo` have been told what the leader had committed; nobody else has moved. */
  predicate Told(s: System, s': System, n: NodeId, todo: set<NodeId>, term: nat, c: nat) {
    && s'.nodes.Keys == s.nodes.Keys
    && forall m :: m in s.nodes && m != n ==>
         if m in todo then s'.nodes[m].currentTerm == term && s'.nodes[m].commitIndex >= c
         else s'.nodes[m] == s.nodes[m]
  }

  predicate Spread(s: System, s': System, n: NodeId, up: set<NodeId>, todo: set<NodeId>) {
    && InCharge(s, n, up) && InCharge(s', n, up) && todo <= up - {n} && Knows(s.nodes[n], s'.nodes[n], todo)
    && Told(s, s', n, todo, s.nodes[n].currentTerm, s.nodes[n].commitIndex)
  }

  lemma {:induction false} SpreadAll(servers: set<NodeId>, run: seq<Action>, s: System, n: NodeId, up: set<NodeId>,
                                     todo: set<NodeId>)
    returns (run': seq<Action>, s': System)
    requires s == Exec(servers, run) && InCharge(s, n, up) && todo <= up - {n}
    ensures run <= run' && s' == Exec(servers, run') && Spread(s, s', n, up, todo)
    decreases |todo|
  {
    if todo == {} {
      run', s' := run, s;
      SpreadNone(s, n, up, todo);
    } else {
      var p :| p in todo;
      var run1, s1 := SpreadTo(servers, run, s, n, up, p);
      StillToDo(s, s1, n, up, p, todo);
      run', s' := SpreadAll(servers, run1, s1, n, up, todo - {p});
      SpreadMore(s, s1, s', n, up, p, todo);
    }
  }

  lemma SpreadTo(servers: set<NodeId>, run: seq<Action>, s: System, n: NodeId, up: set<NodeId>, p: NodeId)
    returns (run': seq<Action>, s': System)
    requires s == Exec(servers, run) && InCharge(s, n, up) && p in up - {n}
    ensures run <= run' && s' == Exec(servers, run') && Spread(s, s', n, up, {p})
  {
    IsPeer(s, n, up, p);
    run', s' := CatchUp(servers, run, s, n, p);
    SpreadOne(s, s', n, up, p);
  }

  lemma IsPeer(s: System, n: NodeId, up: set<NodeId>, p: NodeId)
    requires InCharge(s, n, up) && p in up - {n}
    ensures p in s.nodes[n].peers && s.nodes[p].currentTerm <= s.nodes[n].currentTerm
  {
  }

  lemma StillToDo(s: System, s1: System, n: NodeId, up: set<NodeId>, p: NodeId, todo: set<NodeId>)
    requires Spread(s, s1, n, up, {p}) && p in todo && todo <= up - {n}
    ensures InCharge(s1, n, up) && todo - {p} <= up - {n} && |todo - {p}| < |todo|
  {
  }

  lemma SpreadNone(s: System, n: NodeId, up: set<NodeId>, todo: set<NodeId>)
    requires InCharge(s, n, up) && todo == {}
    ensures Spread(s, s, n, up, todo)
  {
  }

  lemma SpreadOne(s: System, s1: System, n: NodeId, up: set<NodeId>, p: NodeId)
    requires InCharge(s, n, up) && p in up - {n} && p in s.nodes[n].peers && AllOk(s1) && CaughtUp(s, s1, n, p)
    ensures Spread(s, s1, n, up, {p})
  {
    KnowsOne(s.nodes[n], s1.nodes[n], p);
    StillInCharge(s, s1, n, up, {p}, s.nodes[n].commitIndex);
  }

  lemma KnowsOne(st: NodeState, st': NodeState, p: NodeId)
    requires Ok(st) && Ok(st') && Tracked(st, st', p)
    ensures Knows(st, st', {p})
  {
  }

  lemma StillInCharge(s: System, s': System, n: NodeId, up: set<NodeId>, todo: set<NodeId>, c: nat)
    requires InCharge(s, n, up) && AllOk(s') && s'.nodes.Keys == s.nodes.Keys && s'.nodes[n].role.Leader?
    requires s'.nodes[n].currentTerm == s.nodes[n].currentTerm && Told(s, s', n, todo, s.nodes[n].currentTerm, c)
    ensures InCharge(s', n, up)
  {
  }

  lemma SpreadMore(s: System, s1: System, s': System, n: NodeId, up: set<NodeId>, p: NodeId, todo: set<NodeId>)
    requires p in todo && Spread(s, s1, n, up, {p}) && Spread(s1, s', n, up, todo - {p})
    ensures Spread(s, s', n, up, todo)
  {
    KnowsMore(s.nodes[n], s1.nodes[n], s'.nodes[n], p, todo);
    ToldMore(s, s1, s', n, p, todo, s.nodes[n].currentTerm, s.nodes[n].commitIndex, s1.nodes[n].commitIndex);
  }

  lemma KnowsMore(st: NodeState, st1: NodeState, st': NodeState, p: NodeId, todo: set<NodeId>)
    requires p in todo && Knows(st, st1, {p}) && Knows(st1, st', todo - {p})
    ensures Knows(st, st', todo)
  {
    assert todo == {p} + (todo - {p});
  }

  lemma ToldMore(s: System, s1: System, s': System, n: NodeId, p: NodeId, todo: set<NodeId>, term: nat, c: nat, c1: nat)
    requires p in todo && Told(s, s1, n, {p}, term, c) && Told(s1, s', n, todo - {p}, term, c1) && c <= c1
    ensures Told(s, s', n, todo, term, c)
  {
  }

  /** A set of servers around the node that outnumbers the rest. */
  predicate MostOf(up: set<NodeId>, st: NodeState) {
    st.id !in st.peers && st.id in up && up <= st.peers + {st.id} && 2 * |up| > |st.peers| + 1
  }

  lemma MostIsMajority(up: set<NodeId>, st: NodeState)
    requires MostOf(up, st)
    ensures |up| >= Majority(st) && |up - {st.id}| == |up| - 1 && (up == {st.id} ==> st.peers == {})
  {
  }

  lemma SizeWithin(a: set<NodeId>, b: set<NodeId>)
    requires a <= b
    ensures |a| <= |b|
  {
    assert b == a + (b - a);
  }

  /** The commit scan finds a majority. */
  lemma MostHold(st: NodeState, c: nat, up: set<NodeId>)
    requires Ok(st) && st.role.Leader? && 1 <= c <= |st.log| && st.log[c - 1].term == st.currentTerm && MostOf(up, st)
    requires forall p :: p in up - {st.id} ==> st.matchIndex[p] >= c
    ensures Committable(st, c)
  {
    MostIsMajority(up, st);
    SizeWithin(up - {st.id}, Reached(st, c));
  }

  /** Once a majority holds the log, the leader has committed it. */
  lemma SpreadCommits(s: System, s': System, n: NodeId, up: set<NodeId>)
    requires n in s.nodes && Spread(s, s', n, up, up - {n}) && MostOf(up, s.nodes[n]) && s.nodes[n].id == n
    requires s.nodes[n].log != [] && LastTerm(s.nodes[n].log) == s.nodes[n].currentTerm
    requires s.nodes[n].peers == {} ==> s.nodes[n].commitIndex >= |s.nodes[n].log|
    ensures s'.nodes[n].commitIndex >= |s.nodes[n].log|
  {
    KnownCommits(s.nodes[n], s'.nodes[n], up);
  }

  lemma KnownCommits(st: NodeState, st': NodeState, up: set<NodeId>)
    requires MostOf(up, st) && st'.id == st.id && Knows(st, st', up - {st.id})
    requires st.log != [] && LastTerm(st.log) == st.currentTerm
    requires st.peers == {} ==> st.commitIndex >= |st.log|
    ensures st'.commitIndex >= |st.log|
  {
    MostIsMajority(up, st);
    MostHold(st', |st.log|, up);
  }

  // ---- a command ----

  lemma SubmitTo(servers: set<NodeId>, run: seq<Action>, s: System, n: NodeId, up: set<NodeId>, command: string)
    returns (run': seq<Action>, s': System)
    requires s == Exec(servers, run) && InCharge(s, n, up)
    ensures run <= run' && s' == Exec(servers, run') && InCharge(s', n, up) && Quiet(s, s', up)
    ensures s'.nodes[n].log == s.nodes[n].log + [Entry(s.nodes[n].currentTerm, Some(command))]
    ensures s'.nodes[n].currentTerm == s.nodes[n].currentTerm
    ensures s'.nodes[n].peers == {} ==> s'.nodes[n].commitIndex >= |s'.nodes[n].log|
  {
    var e := Entry(s.nodes[n].currentTerm, Some(command));
    run', s' := DoSubmit(servers, run, s, n, command);
    Appends(s.nodes[n], e);
    NowInCharge(s, s', n, up, AppendLocal(s.nodes[n], e));
  }

  lemma DoSubmit(servers: set<NodeId>, run: seq<Action>, s: System, n: NodeId, command: string)
    returns (run': seq<Action>, s': System)
    requires s == Exec(servers, run) && n in s.nodes && s.nodes[n].role.Leader?
    ensures run <= run' && s' == Exec(servers, run')
    ensures s'.nodes == s.nodes[n := AppendLocal(s.nodes[n], Entry(s.nodes[n].currentTerm, Some(command)))]
  {
    run', s' := Do(servers, run, s, Submit(n, command, true));
  }

  lemma NowInCharge(s: System, s': System, n: NodeId, up: set<NodeId>, st': NodeState)
    requires n in up && up <= s.nodes.Keys && AllOk(s') && s'.nodes == s.nodes[n := st'] && st'.role.Leader?
    requires forall m :: m in up && m != n ==> s.nodes[m].currentTerm <= st'.currentTerm
    ensures InCharge(s', n, up) && Quiet(s, s', up) && s'.nodes[n] == st'
  {
  }

  lemma Appends(st: NodeState, e: Entry)
    requires Ok(st) && st.role.Leader? && e.term == st.currentTerm
    ensures var st' := AppendLocal(st, e);
            && st'.log == st.log + [e] && st'.role.Leader? && st'.currentTerm == st.currentTerm && st'.peers == st.peers
            && (st.peers == {} ==> st'.commitIndex >= |st'.log|)
  {
    AppendLocalScans(st, e);
    ScanReaches(Appended(st, e));
    if st.peers == {} { MostHold(Appended(st, e), |st.log| + 1, {st.id}); }
  }

  /** Every server that is up has committed the first `k` entries. */
  predicate AllCommitted(s: System, up: set<NodeId>, k: nat) {
    up <= s.nodes.Keys && forall m :: m in up ==> s.nodes[m].commitIndex >= k
  }

  /** The servers that are up outnumber the others. */
  predicate MostUp(s: System, up: set<NodeId>) {
    up <= s.nodes.Keys && 2 * |up| > |s.nodes|
  }

  lemma MostAround(s: System, n: NodeId, up: set<NodeId>)
    requires AllOk(s) && n in up && MostUp(s, up)
    ensures MostOf(up, s.nodes[n]) && s.nodes[n].id == n
  {
    assert s.nodes[n].peers + {n} == s.nodes.Keys && |s.nodes| == |s.nodes.Keys|;
  }

  lemma CommandSpreads(servers: set<NodeId>, run: seq<Action>, s: System, n: NodeId, up: set<NodeId>, command: string)
    returns (run': seq<Action>, s': System)
    requires s == Exec(servers, run) && InCharge(s, n, up) && MostUp(s, up)
    ensures run <= run' && s' == Exec(servers, run') && InCharge(s', n, up) && Quiet(s, s', up)
    ensures s'.nodes[n].log == s.nodes[n].log + [Entry(s.nodes[n].currentTerm, Some(command))]
    ensures AllCommitted(s', up, |s'.nodes[n].log|) && Last(s'.nodes[n].log) == Some(command)
  {
    var run1, s1 := SubmitTo(servers, run, s, n, up, command);
    var run2, s2 := SpreadAll(servers, run1, s1, n, up, up - {n});
    MostAround(s1, n, up);
    SpreadCommits(s1, s2, n, up);
    run', s' := SpreadAll(servers, run2, s2, n, up, up - {n});
    AllTold(s2, s', n, up);
    LastIs(s.nodes[n].log, Entry(s.nodes[n].currentTerm, Some(command)));
    SpreadQuiet(s1, s2, n, up);
    SpreadQuiet(s2, s', n, up);
    QuietTwice(s, s1, s2, up);
    QuietTwice(s, s2, s', up);
  }

  lemma SpreadQuiet(s: System, s': System, n: NodeId, up: set<NodeId>)
    requires Spread(s, s', n, up, up - {n})
    ensures Quiet(s, s', up)
  {
  }

  lemma LastIs(log: seq<Entry>, e: Entry)
    ensures Last(log + [e]) == e.command
  {
  }

  function Last(log: seq<Entry>): Option<string> {
    if log == [] then None else log[|log| - 1].command
  }

  lemma AllTold(s: System, s': System, n: NodeId, up: set<NodeId>)
    requires n in s.nodes && Spread(s, s', n, up, up - {n}) && s.nodes[n].commitIndex >= |s.nodes[n].log|
    ensures AllCommitted(s', up, |s'.nodes[n].log|)
  {
  }

  // ---- an election ----

  /** All logs are as before. */
  predicate SameLogs(s: System, s': System) {
    s'.nodes.Keys == s.nodes.Keys && forall m :: m in s.nodes ==> s'.nodes[m].log == s.nodes[m].log
  }

  /** The node is neither a leader nor in the middle of starting a campaign. */
  predicate Ready(s: System, n: NodeId) {
    AllOk(s) && n in s.nodes && !s.nodes[n].role.Leader? && !s.nodes[n].campaigning
  }

  lemma GetReady(servers: set<NodeId>, run: seq<Action>, s: System, n: NodeId, up: set<NodeId>)
    returns (run': seq<Action>, s': System)
    requires s == Exec(servers, run) && n in up && up <= s.nodes.Keys && !InCharge(s, n, up)
    ensures run <= run' && s' == Exec(servers, run') && Ready(s', n) && Alone(s, s', n)
  {
    var run1, s1 := StepAside(servers, run, s, n, up);
    run', s' := run1, s1;
    if s1.nodes[n].campaigning {
      var vote;
      run', s', vote := DoCampaign(servers, run1, s1, n);
      AloneTwice(s, s1, s', n);
    }
  }

  /** A leader that is not in charge can be made to step down. */
  lemma StepAside(servers: set<NodeId>, run: seq<Action>, s: System, n: NodeId, up: set<NodeId>)
    returns (run': seq<Action>, s': System)
    requires s == Exec(servers, run) && n in up && up <= s.nodes.Keys && !InCharge(s, n, up)
    ensures run <= run' && s' == Exec(servers, run') && Alone(s, s', n) && !s'.nodes[n].role.Leader?
  {
    run', s' := run, s;
    NotMoved(s.nodes, n);
    if s.nodes[n].role.Leader? {
      var m :| m in up && s.nodes[m].currentTerm > s.nodes[n].currentTerm;
      run' := PeerDethrones(servers, run, n, m);
      s' := Exec(servers, run');
      SteppedDown(s, s', n, s.nodes[m].currentTerm);
    }
  }

  lemma SteppedDown(s: System, s': System, n: NodeId, term: nat)
    requires n in s.nodes && Ok(s.nodes[n]) && s'.nodes == s.nodes[n := StepDown(s.nodes[n], term)]
    ensures Alone(s, s', n) && !s'.nodes[n].role.Leader?
  {
  }

  /** A candidate with its requests out and its own vote in hand. */
  predicate Campaigns(s: System, n: NodeId, vote: VoteArgs) {
    && AllOk(s) && n in s.nodes && s.nodes[n].role.Candidate? && !s.nodes[n].campaigning
    && vote == VoteRequestOf(s.nodes[n], s.nodes[n].currentTerm) && vote.term in s.nodes[n].elections
    && forall p :: p in s.nodes[n].peers ==> VoteRequest(p, vote) in s.msgs
  }

  /** Only node `n` has moved, and its log is as before. */
  predicate Alone(s: System, s': System, n: NodeId) {
    && n in s.nodes && n in s'.nodes && s'.nodes == s.nodes[n := s'.nodes[n]] && s'.nodes[n].log == s.nodes[n].log
  }

  lemma DoTimeout(servers: set<NodeId>, run: seq<Action>, s: System, n: NodeId) returns (run': seq<Action>, s': System)
    requires s == Exec(servers, run) && Ready(s, n)
    ensures run <= run' && s' == Exec(servers, run') && s'.nodes == s.nodes[n := BecomeCandidate(s.nodes[n])]
  {
    run', s' := Do(servers, run, s, Timeout(n));
  }

  lemma DoCampaign(servers: set<NodeId>, run: seq<Action>, s: System, n: NodeId)
    returns (run': seq<Action>, s': System, vote: VoteArgs)
    requires s == Exec(servers, run) && n in s.nodes && s.nodes[n].campaigning
    ensures run <= run' && s' == Exec(servers, run')
    ensures s'.nodes == s.nodes[n := StartElection(s.nodes[n]).0] && vote == StartElection(s.nodes[n]).1
    ensures forall p :: p in s.nodes[n].peers ==> VoteRequest(p, vote) in s'.msgs
  {
    run', s' := Do(servers, run, s, Campaign(n));
    vote := StartElection(s.nodes[n]).1;
  }

  lemma RaiseOnce(servers: set<NodeId>, run: seq<Action>, s: System, n: NodeId)
    returns (run': seq<Action>, s': System, vote: VoteArgs)
    requires s == Exec(servers, run) && Ready(s, n)
    ensures run <= run' && s' == Exec(servers, run') && Alone(s, s', n) && Campaigns(s', n, vote)
    ensures vote.term == s.nodes[n].currentTerm + 1 && s'.nodes[n].elections[vote.term] == {n}
  {
    var run1, s1 := DoTimeout(servers, run, s, n);
    run', s', vote := DoCampaign(servers, run1, s1, n);
    Raised(s, s', n, s1.nodes[n], s'.nodes[n], vote);
  }

  lemma Raised(s: System, s': System, n: NodeId, st1: NodeState, st2: NodeState, vote: VoteArgs)
    requires Ready(s, n) && AllOk(s') && s'.nodes == s.nodes[n := st1][n := st2]
    requires st1 == BecomeCandidate(s.nodes[n]) && (st2, vote) == StartElection(st1)
    requires forall p :: p in st1.peers ==> VoteRequest(p, vote) in s'.msgs
    ensures Alone(s, s', n) && Campaigns(s', n, vote)
    ensures vote.term == s.nodes[n].currentTerm + 1 && s'.nodes[n].elections[vote.term] == {n}
  {
    TwiceMoved(s.nodes, st1, st2, n);
  }

  lemma TwiceMoved(nodes: map<NodeId, NodeState>, a: NodeState, b: NodeState, n: NodeId)
    ensures nodes[n := a][n := b] == nodes[n := b]
  {
  }

  /** A node can campaign in a term beyond any bound. */
  lemma {:induction false} RaiseAbove(servers: set<NodeId>, run: seq<Action>, s: System, n: NodeId, bound: nat)
    returns (run': seq<Action>, s': System, vote: VoteArgs)
    requires s == Exec(servers, run) && Ready(s, n)
    ensures run <= run' && s' == Exec(servers, run') && Alone(s, s', n) && Campaigns(s', n, vote)
    ensures vote.term > bound && s'.nodes[n].elections[vote.term] == {n}
    decreases bound - s.nodes[n].currentTerm
  {
    run', s', vote := RaiseOnce(servers, run, s, n);
    if vote.term <= bound {
      var s1 := s';
      run', s', vote := RaiseAbove(servers, run', s1, n, bound);
      AloneTwice(s, s1, s', n);
    }
  }

  lemma AloneTwice(s: System, s1: System, s': System, n: NodeId)
    requires Alone(s, s1, n) && Alone(s1, s', n)
    ensures Alone(s, s', n)
  {
    TwiceMoved(s.nodes, s1.nodes[n], s'.nodes[n], n);
  }

  /** Nobody in `todo` has heard of this term, and the candidate's log is at least as up to date as theirs. */
  predicate WillVote(s: System, n: NodeId, term: nat, todo: set<NodeId>) {
    n in s.nodes && forall p :: p in todo ==>
      p in s.nodes && p != n && s.nodes[p].currentTerm < term && Ahead(s.nodes[n].log, s.nodes[p].log)
  }

  /** The votes in `got` have been counted; the candidate is otherwise as before, and no log has changed. */
  predicate Counted(s: System, s': System, n: NodeId, vote: VoteArgs, got: set<NodeId>) {
    && n in s.nodes && vote.term in s.nodes[n].elections && Campaigns(s', n, vote) && SameLogs(s, s')
    && s'.nodes[n].elections[vote.term] == s.nodes[n].elections[vote.term] + got
    && (forall p :: p in got && p in s.nodes ==> s'.nodes[p].currentTerm == vote.term)
    && (forall m :: m in s.nodes && m != n && m !in got ==> s'.nodes[m] == s.nodes[m])
  }

  lemma DoVote(servers: set<NodeId>, run: seq<Action>, s: System, p: NodeId, vote: VoteArgs)
    returns (run': seq<Action>, s': System, reply: VoteReply)
    requires s == Exec(servers, run) && p in s.nodes && VoteRequest(p, vote) in s.msgs
    ensures run <= run' && |run'| == |run| + 1 && s' == Exec(servers, run') && s.msgs <= s'.msgs
    ensures s'.nodes == s.nodes[p := HandleRequestVote(s.nodes[p], vote).0] && reply == HandleRequestVote(s.nodes[p], vote).1
    ensures VoteResponse(p, vote, reply) in s'.msgs
  {
    run', s' := Do(servers, run, s, ReceiveVoteRequest(p, vote));
    reply := HandleRequestVote(s.nodes[p], vote).1;
  }

  lemma DoCount(servers: set<NodeId>, run: seq<Action>, s: System, n: NodeId, p: NodeId, vote: VoteArgs, reply: VoteReply)
    returns (run': seq<Action>, s': System)
    requires s == Exec(servers, run) && n in s.nodes && vote.candidate == n && VoteResponse(p, vote, reply) in s.msgs
    ensures run <= run' && |run'| == |run| + 1 && s' == Exec(servers, run') && s.msgs <= s'.msgs
    ensures s'.nodes == s.nodes[n := OnVoteReply(s.nodes[n], p, vote, reply)]
  {
    run', s' := Do(servers, run, s, ReceiveVoteReply(n, p, vote, reply));
  }

  /** A voter that is in a later term refuses, and by its answer takes the candidate into that term as a follower. */
  lemma VoterDethrones(servers: set<NodeId>, run: seq<Action>, n: NodeId, p: NodeId, vote: VoteArgs) returns (run': seq<Action>)
    requires n in servers && p in servers && n != p && VoteRequest(p, vote) in Exec(servers, run).msgs && vote.candidate == n
    requires Exec(servers, run).nodes[p].currentTerm > vote.term
    requires Exec(servers, run).nodes[p].currentTerm > Exec(servers, run).nodes[n].currentTerm
    ensures run <= run' && |run'| == |run| + 2
    ensures var s, s' := Exec(servers, run), Exec(servers, run');
            s'.nodes == s.nodes[n := StepDown(s.nodes[n], s.nodes[p].currentTerm)]
  {
    var s := Exec(servers, run);
    Refuses(s.nodes[n], s.nodes[p], vote);
    var run1, s1, reply := DoVote(servers, run, s, p, vote);
    NotMoved(s.nodes, p);
    var s';
    run', s' := DoCount(servers, run1, s1, n, p, vote, reply);
  }

  lemma Refuses(st: NodeState, q: NodeState, vote: VoteArgs)
    requires Ok(st) && Ok(q) && q.currentTerm > vote.term && q.currentTerm > st.currentTerm
    ensures HandleRequestVote(q, vote) == (q, VoteReply(q.currentTerm, false))
    ensures OnVoteReply(st, q.id, vote, VoteReply(q.currentTerm, false)) == StepDown(st, q.currentTerm)
  {
  }

  lemma NotMoved(nodes: map<NodeId, NodeState>, p: NodeId)
    requires p in nodes
    ensures nodes[p := nodes[p]] == nodes
  {
  }

  lemma OneVote(servers: set<NodeId>, run: seq<Action>, s: System, n: NodeId, vote: VoteArgs, p: NodeId)
    returns (run': seq<Action>, s': System)
    requires s == Exec(servers, run) && Campaigns(s, n, vote) && WillVote(s, n, vote.term, {p})
    ensures run <= run' && s' == Exec(servers, run') && Counted(s, s', n, vote, {p})
  {
    assert p in {p};
    VoteGiven(s.nodes[n], s.nodes[p], vote);
    var run1, s1, reply := DoVote(servers, run, s, p, vote);
    run', s' := DoCount(servers, run1, s1, n, p, vote, reply);
    OneCounted(s, s', n, vote, p, s1.nodes[p]);
  }

  lemma OneCounted(s: System, s': System, n: NodeId, vote: VoteArgs, p: NodeId, q: NodeState)
    requires Campaigns(s, n, vote) && AllOk(s') && p in s.nodes && p != n && s.msgs <= s'.msgs
    requires q.log == s.nodes[p].log && q.currentTerm == vote.term
    requires s'.nodes == s.nodes[p := q][n := WithVote(s.nodes[n], vote.term, p)]
    ensures Counted(s, s', n, vote, {p})
  {
    TwoMoved(s.nodes, s'.nodes, n, p, q, WithVote(s.nodes[n], vote.term, p));
  }

  function WithVote(st: NodeState, term: nat, p: NodeId): NodeState
    requires term in st.elections
  {
    st.(elections := st.elections[term := st.elections[term] + {p}])
  }

  lemma VoteGiven(st: NodeState, q: NodeState, vote: VoteArgs)
    requires Ok(st) && Ok(q) && st.role.Candidate? && vote == VoteRequestOf(st, st.currentTerm)
    requires q.currentTerm < vote.term && Ahead(st.log, q.log) && vote.term in st.elections
    ensures var (q', r) := HandleRequestVote(q, vote);
            && q'.log == q.log && q'.currentTerm == vote.term && r.granted
            && OnVoteReply(st, q.id, vote, r) == WithVote(st, vote.term, q.id)
  {
    FreeGrants(q, vote, st.log);
  }

  lemma {:induction false} AllVote(servers: set<NodeId>, run: seq<Action>, s: System, n: NodeId, vote: VoteArgs,
                                   todo: set<NodeId>) returns (run': seq<Action>, s': System)
    requires s == Exec(servers, run) && Campaigns(s, n, vote) && WillVote(s, n, vote.term, todo)
    ensures run <= run' && s' == Exec(servers, run') && Counted(s, s', n, vote, todo)
    decreases |todo|
  {
    run', s' := run, s;
    if todo == {} {
      NoneCounted(s, n, vote, todo);
    } else {
      var p :| p in todo;
      OthersWillVote(s, s, n, vote, {}, {p}, todo);
      var run1, s1 := OneVote(servers, run, s, n, vote, p);
      OthersWillVote(s, s1, n, vote, {p}, todo - {p}, todo);
      run', s' := AllVote(servers, run1, s1, n, vote, todo - {p});
      CountedMore(s, s1, s', n, vote, p, todo);
    }
  }

  lemma NoneCounted(s: System, n: NodeId, vote: VoteArgs, todo: set<NodeId>)
    requires Campaigns(s, n, vote) && todo == {}
    ensures Counted(s, s, n, vote, todo)
  {
  }

  lemma OthersWillVote(s: System, s1: System, n: NodeId, vote: VoteArgs, got: set<NodeId>, rest: set<NodeId>, todo: set<NodeId>)
    requires Campaigns(s, n, vote) && WillVote(s, n, vote.term, todo) && rest <= todo && got !! rest
    requires s1 == s || Counted(s, s1, n, vote, got)
    ensures WillVote(s1, n, vote.term, rest)
  {
  }

  lemma CountedMore(s: System, s1: System, s': System, n: NodeId, vote: VoteArgs, p: NodeId, todo: set<NodeId>)
    requires p in todo && n !in todo && Counted(s, s1, n, vote, {p}) && Counted(s1, s', n, vote, todo - {p})
    ensures Counted(s, s', n, vote, todo)
  {
    var rest := todo - {p};
    assert s.nodes[n].elections[vote.term] + {p} + rest == s.nodes[n].elections[vote.term] + todo;
    VotersMoved(s, s1, s', n, vote.term, p, rest);
  }

  lemma VotersMoved(s: System, s1: System, s': System, n: NodeId, term: nat, p: NodeId, rest: set<NodeId>)
    requires s1.nodes.Keys == s.nodes.Keys == s'.nodes.Keys && p !in rest && p != n
    requires forall m :: m in s.nodes && m != n ==>
               if m == p then s1.nodes[m].currentTerm == term else s1.nodes[m] == s.nodes[m]
    requires forall m :: m in s.nodes && m != n ==>
               if m in rest then s'.nodes[m].currentTerm == term else s'.nodes[m] == s1.nodes[m]
    ensures forall m :: m in s.nodes && m != n ==>
              if m == p || m in rest then s'.nodes[m].currentTerm == term else s'.nodes[m] == s.nodes[m]
  {
  }

  /** With the votes of a majority, the candidate wins. */
  lemma WinsMost(servers: set<NodeId>, run: seq<Action>, s: System, n: NodeId, up: set<NodeId>, vote: VoteArgs)
    returns (run': seq<Action>, s': System)
    requires s == Exec(servers, run) && Campaigns(s, n, vote) && s.nodes[n].elections[vote.term] == up
    requires n in up && MostUp(s, up) && forall m :: m in up ==> s.nodes[m].currentTerm <= vote.term
    ensures run <= run' && s' == Exec(servers, run') && InCharge(s', n, up) && Quiet(s, s', up)
    ensures Opens(s.nodes[n].log, s'.nodes[n])
  {
    MostAround(s, n, up);
    MostIsMajority(up, s.nodes[n]);
    run', s' := DoWin(servers, run, s, n, vote.term);
    Wins(s.nodes[n], vote.term);
    NowInCharge(s, s', n, up, TryBecomeLeader(s.nodes[n], vote.term, true));
  }

  lemma DoWin(servers: set<NodeId>, run: seq<Action>, s: System, n: NodeId, term: nat)
    returns (run': seq<Action>, s': System)
    requires s == Exec(servers, run) && n in s.nodes && term in s.nodes[n].elections
    requires |s.nodes[n].elections[term]| >= Majority(s.nodes[n])
    ensures run <= run' && s' == Exec(servers, run') && s'.nodes == s.nodes[n := TryBecomeLeader(s.nodes[n], term, true)]
  {
    run', s' := Do(servers, run, s, Win(n, term, true));
  }

  /** The new leader has appended its own empty entry, and committed it if it is alone. */
  predicate Opens(log: seq<Entry>, st: NodeState) {
    st.log == log + [Entry(st.currentTerm, None)] && (st.peers == {} ==> st.commitIndex >= |st.log|)
  }

  lemma Wins(st: NodeState, term: nat)
    requires Ok(st) && st.role.Candidate? && st.currentTerm == term
    ensures var st' := TryBecomeLeader(st, term, true); st'.role.Leader? && st'.currentTerm == term && Opens(st.log, st')
  {
    Appends(Crowned(st), Entry(term, None));
  }

  /** A bound on all terms. */
  lemma {:induction false} TermBound(nodes: map<NodeId, NodeState>, todo: set<NodeId>) returns (bound: nat)
    requires todo <= nodes.Keys
    ensures forall m :: m in todo ==> nodes[m].currentTerm <= bound
    decreases |todo|
  {
    bound := 0;
    if todo != {} {
      var m :| m in todo;
      bound := TermBound(nodes, todo - {m});
      if nodes[m].currentTerm > bound { bound := nodes[m].currentTerm; }
    }
  }

  /** No log of a server that is up is more up to date. */
  predicate AheadOf(s: System, n: NodeId, up: set<NodeId>) {
    n in up && up <= s.nodes.Keys && forall m :: m in up ==> Ahead(s.nodes[n].log, s.nodes[m].log)
  }

  /** Among a majority that is up, a node whose log is at least as up to date as those of the others can be elected. */
  lemma CanBeElected(servers: set<NodeId>, run: seq<Action>, s: System, n: NodeId, up: set<NodeId>)
    returns (run': seq<Action>, s': System)
    requires s == Exec(servers, run) && AheadOf(s, n, up) && MostUp(s, up)
    ensures run <= run' && s' == Exec(servers, run') && InCharge(s', n, up) && Quiet(s, s', up)
  {
    if InCharge(s, n, up) {
      run', s' := run, s;
    } else {
      run', s' := Elect(servers, run, s, n, up);
    }
  }

  lemma Elect(servers: set<NodeId>, run: seq<Action>, s: System, n: NodeId, up: set<NodeId>)
    returns (run': seq<Action>, s': System)
    requires s == Exec(servers, run) && AheadOf(s, n, up) && MostUp(s, up) && !InCharge(s, n, up)
    ensures run <= run' && s' == Exec(servers, run') && InCharge(s', n, up) && Quiet(s, s', up)
    ensures Opens(s.nodes[n].log, s'.nodes[n])
  {
    var run1, s1 := GetReady(servers, run, s, n, up);
    var bound := TermBound(s1.nodes, up);
    var run2, s2, vote := RaiseAbove(servers, run1, s1, n, bound);
    AloneTwice(s, s1, s2, n);
    AllWillVote(s, s1, s2, n, up, vote.term, bound);
    var run3, s3 := AllVote(servers, run2, s2, n, vote, up - {n});
    AllHaveVoted(s, s2, s3, n, up, vote);
    run', s' := WinsMost(servers, run3, s3, n, up, vote);
    QuietTwice(s, s3, s', up);
  }

  lemma AllWillVote(s: System, s1: System, s2: System, n: NodeId, up: set<NodeId>, term: nat, bound: nat)
    requires AheadOf(s, n, up) && Alone(s, s1, n) && Alone(s, s2, n) && AllOk(s2) && term > bound
    requires forall m :: m in up ==> s1.nodes[m].currentTerm <= bound
    ensures WillVote(s2, n, term, up - {n})
  {
  }

  lemma AllHaveVoted(s0: System, s: System, s': System, n: NodeId, up: set<NodeId>, vote: VoteArgs)
    requires n in up && up <= s0.nodes.Keys && Alone(s0, s, n)
    requires Campaigns(s, n, vote) && s.nodes[n].elections[vote.term] == {n} && Counted(s, s', n, vote, up - {n})
    ensures s'.nodes[n].elections[vote.term] == up && Quiet(s0, s', up) && s'.nodes[n].log == s0.nodes[n].log
    ensures up <= s'.nodes.Keys && forall m :: m in up ==> s'.nodes[m].currentTerm <= vote.term
  {
    assert up == {n} + (up - {n});
  }

  // ---- the theorems ----

  /** At this index all of the servers have applied the command. */
  predicate AppliedBy(s: System, up: set<NodeId>, command: string, k: nat) {
    k >= 1 && up <= s.nodes.Keys && forall m :: m in up ==> HasApplied(s.nodes[m], command, k)
  }

  predicate HasApplied(st: NodeState, command: string, k: nat) {
    1 <= k <= |st.applied| && st.applied[k - 1].index == k && st.applied[k - 1].entry.command == Some(command)
  }

  lemma CommittedIsApplied(servers: set<NodeId>, run: seq<Action>, n: NodeId, up: set<NodeId>, k: nat, command: string)
    requires n in up && up <= servers && AllCommitted(Exec(servers, run), up, k)
    requires k == |Exec(servers, run).nodes[n].log| && Last(Exec(servers, run).nodes[n].log) == Some(command)
    ensures AppliedBy(Exec(servers, run), up, command, k)
  {
    forall m | m in up ensures HasApplied(Exec(servers, run).nodes[m], command, k) {
      AppliedInOrder(servers, run, n);
      AppliedInOrder(servers, run, m);
      AgreeNow(servers, run, n, m);
      SameAt(Exec(servers, run).nodes[n], Exec(servers, run).nodes[m], command, k);
    }
  }

  lemma SameAt(a: NodeState, b: NodeState, command: string, k: nat)
    requires 1 <= k == |a.log| && Last(a.log) == Some(command) && |a.applied| >= k && |b.applied| >= k
    requires a.applied[k - 1] == Applied(k, a.log[k - 1]) && (a.applied <= b.applied || b.applied <= a.applied)
    ensures HasApplied(b, command, k)
  {
  }

  lemma AgreeNow(servers: set<NodeId>, run: seq<Action>, n: NodeId, m: NodeId)
    requires n in servers && m in servers
    ensures var a, b := Exec(servers, run).nodes[n].applied, Exec(servers, run).nodes[m].applied; a <= b || b <= a
  {
    assert run[..|run|] == run;
    StateMachineSafety(servers, run, |run|, n, |run|, m);
  }

  /** From every reachable state, for every majority that is up, every node of it whose log is at least as up to date as
      those of the others, and every command: a run leads on to a state in which that node leads and the whole majority has
      applied the command, while the rest of the servers have done nothing. */
  lemma CommandCanBeApplied(servers: set<NodeId>, run: seq<Action>, n: NodeId, up: set<NodeId>, command: string)
    returns (run': seq<Action>, k: nat)
    requires AheadOf(Exec(servers, run), n, up) && 2 * |up| > |servers|
    ensures run <= run' && Exec(servers, run').nodes[n].role.Leader? && AppliedBy(Exec(servers, run'), up, command, k)
    ensures Quiet(Exec(servers, run), Exec(servers, run'), up)
  {
    var s := Exec(servers, run);
    var run1, s1 := CanBeElected(servers, run, s, n, up);
    var s';
    run', s' := CommandSpreads(servers, run1, s1, n, up, command);
    k := |s'.nodes[n].log|;
    CommittedIsApplied(servers, run', n, up, k, command);
    QuietTwice(s, s1, s', up);
  }

  // ---- the backlog ----

  /** The whole log reaches everybody who is up. */
  lemma LogSpreads(servers: set<NodeId>, run: seq<Action>, s: System, n: NodeId, up: set<NodeId>, log: seq<Entry>)
    returns (run': seq<Action>, s': System)
    requires s == Exec(servers, run) && InCharge(s, n, up) && MostUp(s, up) && Opens(log, s.nodes[n])
    ensures run <= run' && s' == Exec(servers, run') && InCharge(s', n, up) && Quiet(s, s', up)
    ensures s'.nodes[n].log == s.nodes[n].log && s'.nodes[n].currentTerm == s.nodes[n].currentTerm
    ensures AllCommitted(s', up, |s.nodes[n].log|)
  {
    MostAround(s, n, up);
    var run1, s1 := SpreadAll(servers, run, s, n, up, up - {n});
    SpreadCommits(s, s1, n, up);
    run', s' := SpreadAll(servers, run1, s1, n, up, up - {n});
    AllTold(s1, s', n, up);
    SpreadQuiet(s, s1, n, up);
    SpreadQuiet(s1, s', n, up);
    QuietTwice(s, s1, s', up);
  }

  /** The servers have applied the entries from the first one on. */
  predicate AppliedAll(s: System, up: set<NodeId>, log: seq<Entry>) {
    up <= s.nodes.Keys && forall m :: m in up ==> Span(log, 0, |log|) <= s.nodes[m].applied
  }

  lemma PrefixApplied(a: NodeState, b: NodeState, log: seq<Entry>)
    requires |a.applied| <= |a.log| && log <= a.log
    requires forall i :: 0 <= i < |a.applied| ==> a.applied[i] == Applied(i + 1, a.log[i])
    requires |a.applied| >= |log| && |b.applied| >= |log| && (a.applied <= b.applied || b.applied <= a.applied)
    ensures Span(log, 0, |log|) <= b.applied
  {
  }

  lemma LogIsApplied(servers: set<NodeId>, run: seq<Action>, n: NodeId, up: set<NodeId>, log: seq<Entry>)
    requires n in up && up <= servers && log <= Exec(servers, run).nodes[n].log
    requires AllCommitted(Exec(servers, run), up, |log|)
    ensures AppliedAll(Exec(servers, run), up, log)
  {
    forall m | m in up ensures Span(log, 0, |log|) <= Exec(servers, run).nodes[m].applied {
      AppliedInOrder(servers, run, n);
      AppliedInOrder(servers, run, m);
      AgreeNow(servers, run, n, m);
      PrefixApplied(Exec(servers, run).nodes[n], Exec(servers, run).nodes[m], log);
    }
  }

  /** What earlier leaders left behind needs no client to get on: from every reachable state, for every majority that is up
      and every node of it that does not lead and whose log is at least as up to date as those of the others, a run makes
      that node leader, adds nothing but its empty entry to its log, and brings everything in it to all of the majority. */
  lemma BacklogCanBeApplied(servers: set<NodeId>, run: seq<Action>, n: NodeId, up: set<NodeId>) returns (run': seq<Action>)
    requires AheadOf(Exec(servers, run), n, up) && 2 * |up| > |servers| && !Exec(servers, run).nodes[n].role.Leader?
    ensures run <= run' && Quiet(Exec(servers, run), Exec(servers, run'), up)
    ensures var st, log := Exec(servers, run').nodes[n], Exec(servers, run).nodes[n].log;
            st.role.Leader? && st.log == log + [Entry(st.currentTerm, None)] && AppliedAll(Exec(servers, run'), up, st.log)
  {
    var s';
    run', s' := Backlog(servers, run, Exec(servers, run), n, up);
    LogIsApplied(servers, run', n, up, s'.nodes[n].log);
  }

  lemma Backlog(servers: set<NodeId>, run: seq<Action>, s: System, n: NodeId, up: set<NodeId>)
    returns (run': seq<Action>, s': System)
    requires s == Exec(servers, run) && AheadOf(s, n, up) && MostUp(s, up) && !s.nodes[n].role.Leader?
    ensures run <= run' && s' == Exec(servers, run') && Quiet(s, s', up) && InCharge(s', n, up)
    ensures s'.nodes[n].log == s.nodes[n].log + [Entry(s'.nodes[n].currentTerm, None)]
    ensures AllCommitted(s', up, |s'.nodes[n].log|)
  {
    var run1, s1 := Elect(servers, run, s, n, up);
    run', s' := LogSpreads(servers, run1, s1, n, up, s.nodes[n].log);
    QuietTwice(s, s1, s', up);
  }

  /** In a new cluster that is every node. */
  lemma AnyoneCanLead(servers: set<NodeId>, n: NodeId, command: string) returns (run: seq<Action>, k: nat)
    requires n in servers
    ensures Exec(servers, run).nodes[n].role.Leader? && AppliedBy(Exec(servers, run), servers, command, k)
  {
    run, k := CommandCanBeApplied(servers, [], n, servers, command);
  }

  lemma {:induction false} MostUpToDate(s: System, todo: set<NodeId>) returns (n: NodeId)
    requires todo != {} && todo <= s.nodes.Keys
    ensures n in todo && forall m :: m in todo ==> Ahead(s.nodes[n].log, s.nodes[m].log)
    decreases |todo|
  {
    n :| n in todo;
    if todo != {n} {
      var best := MostUpToDate(s, todo - {n});
      AheadIsTotal(s.nodes[n].log, s.nodes[best].log);
      if Ahead(s.nodes[n].log, s.nodes[best].log) {
        forall m | m in todo ensures Ahead(s.nodes[n].log, s.nodes[m].log) {
          if m != n { AheadIsTransitive(s.nodes[n].log, s.nodes[best].log, s.nodes[m].log); }
        }
      } else {
        n := best;
      }
    }
  }

  /** No reachable state is a dead end: from each of them, with any majority up, some node of it can be elected and have
      every command applied by all of it. */
  lemma NoDeadEnd(servers: set<NodeId>, run: seq<Action>, up: set<NodeId>, command: string)
    returns (run': seq<Action>, n: NodeId, k: nat)
    requires up <= servers && 2 * |up| > |servers|
    ensures run <= run' && n in up
    ensures Exec(servers, run').nodes[n].role.Leader? && AppliedBy(Exec(servers, run'), up, command, k)
    ensures Quiet(Exec(servers, run), Exec(servers, run'), up)
  {
    var s := Exec(servers, run);
    n := MostUpToDate(s, up);
    run', k := CommandCanBeApplied(servers, run, n, up, command);
  }
}
