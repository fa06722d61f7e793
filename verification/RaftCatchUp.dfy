/** A leader and a peer, from any reachable state: a finite exchange between the two brings the peer's log up to the end of
    the leader's. */
module RaftCatchUp {
  import opened Options
  import opened RaftTypes
  import opened RaftSpec
  import opened RaftSystem
  import opened RaftHistory
  import opened RaftLeader
  import opened RaftTheorems

  // ---- one action ----

  /** One more enabled action at the end of a run. */
  lemma Do(servers: set<NodeId>, run: seq<Action>, s: System, a: Action) returns (run': seq<Action>, s': System)
    requires s == Exec(servers, run) && Enabled(s, a)
    ensures run' == run + [a] && s' == Exec(servers, run')
    ensures s'.nodes == s.nodes[a.n := Act(s.nodes[a.n], a).0] && s'.msgs == s.msgs + Act(s.nodes[a.n], a).1
  {
    run' := run + [a];
    assert run'[..|run|] == run;
    s' := Step(s, a);
  }

  /** The action belongs to an exchange of entries between the leader `n` and its peer `p`. */
  predicate Between(a: Action, n: NodeId, p: NodeId) {
    || (a.Send? && a.n == n && a.peer == p)
    || (a.ReceiveAppend? && a.n == p && a.append.leaderId == n)
    || (a.ReceiveAppendReply? && a.n == n && a.from == p)
  }

  predicate Exchange(run: seq<Action>, run': seq<Action>, n: NodeId, p: NodeId) {
    run <= run' && forall i :: |run| <= i < |run'| ==> Between(run'[i], n, p)
  }

  lemma ExchangeMore(run: seq<Action>, run': seq<Action>, n: NodeId, p: NodeId, a: Action)
    requires Exchange(run, run', n, p) && Between(a, n, p)
    ensures Exchange(run, run' + [a], n, p)
  {
  }

  lemma ExchangeJoin(run: seq<Action>, run': seq<Action>, run'': seq<Action>, n: NodeId, p: NodeId)
    requires Exchange(run, run', n, p) && Exchange(run', run'', n, p)
    ensures Exchange(run, run'', n, p)
  {
  }

  // ---- there and back ----

  predicate Leads(s: System, n: NodeId, p: NodeId) {
    AllOk(s) && n in s.nodes && p in s.nodes && n != p && s.nodes[n].role.Leader?
  }

  lemma SendTo(servers: set<NodeId>, run: seq<Action>, s: System, n: NodeId, p: NodeId)
    returns (run': seq<Action>, s': System, args: AppendArgs)
    requires s == Exec(servers, run) && Leads(s, n, p)
    ensures run' == run + [Send(n, p)] && s' == Exec(servers, run') && s'.nodes == s.nodes
    ensures CanSend(s.nodes[n], p) && args == Replicate(s.nodes[n], p) && AppendRequest(p, args) in s'.msgs
  {
    LeaderCanSend(servers, run, n, p);
    args := Replicate(s.nodes[n], p);
    run', s' := Do(servers, run, s, Send(n, p));
    Unchanged(s, s', n);
  }

  lemma Unchanged(s: System, s': System, n: NodeId)
    requires n in s.nodes && s'.nodes == s.nodes[n := s.nodes[n]]
    ensures s'.nodes == s.nodes
  {
  }

  lemma AnswerTo(servers: set<NodeId>, run: seq<Action>, s: System, p: NodeId, args: AppendArgs)
    returns (run': seq<Action>, s': System, q: NodeState, reply: AppendReply)
    requires s == Exec(servers, run) && p in s.nodes && AppendRequest(p, args) in s.msgs
    ensures run' == run + [ReceiveAppend(p, args, true)] && s' == Exec(servers, run')
    ensures (q, reply) == HandleAppendEntries(s.nodes[p], args, true)
    ensures s'.nodes == s.nodes[p := q] && AppendResponse(p, args, reply) in s'.msgs
  {
    q, reply := HandleAppendEntries(s.nodes[p], args, true).0, HandleAppendEntries(s.nodes[p], args, true).1;
    run', s' := Do(servers, run, s, ReceiveAppend(p, args, true));
  }

  lemma HearFrom(servers: set<NodeId>, run: seq<Action>, s: System, n: NodeId, p: NodeId, args: AppendArgs,
                 reply: AppendReply) returns (run': seq<Action>, s': System)
    requires s == Exec(servers, run) && n in s.nodes && p in s.nodes[n].peers && args.leaderId == n
    requires AppendResponse(p, args, reply) in s.msgs
    ensures run' == run + [ReceiveAppendReply(n, p, args, reply)] && s' == Exec(servers, run')
    ensures s'.nodes == s.nodes[n := OnAppendReply(s.nodes[n], p, args, reply)]
  {
    run', s' := Do(servers, run, s, ReceiveAppendReply(n, p, args, reply));
  }

  /** A request to the peer, its answer, and what the leader makes of it. */
  lemma RoundTrip(servers: set<NodeId>, run: seq<Action>, s: System, n: NodeId, p: NodeId)
    returns (run': seq<Action>, s': System, args: AppendArgs, q: NodeState, reply: AppendReply)
    requires s == Exec(servers, run) && Leads(s, n, p)
    ensures Exchange(run, run', n, p) && s' == Exec(servers, run')
    ensures CanSend(s.nodes[n], p) && args == Replicate(s.nodes[n], p)
    ensures (q, reply) == HandleAppendEntries(s.nodes[p], args, true)
    ensures s'.nodes == s.nodes[p := q][n := OnAppendReply(s.nodes[n], p, args, reply)]
  {
    var run1, s1, run2, s2;
    run1, s1, args := SendTo(servers, run, s, n, p);
    run2, s2, q, reply := AnswerTo(servers, run1, s1, p, args);
    run', s' := HearFrom(servers, run2, s2, n, p, args, reply);
    ThreeBetween(run, Send(n, p), ReceiveAppend(p, args, true), ReceiveAppendReply(n, p, args, reply), n, p);
  }

  lemma ThreeBetween(run: seq<Action>, a: Action, b: Action, c: Action, n: NodeId, p: NodeId)
    requires Between(a, n, p) && Between(b, n, p) && Between(c, n, p)
    ensures Exchange(run, run + [a] + [b] + [c], n, p)
  {
    ExchangeMore(run, run, n, p, a);
    ExchangeMore(run, run + [a], n, p, b);
    ExchangeMore(run, run + [a] + [b], n, p, c);
  }

  /** How a follower answers a request that is not behind: it moves to the term of the request, answers with its old one,
      and refuses only if something has to come before. */
  lemma Answered(q: NodeState, args: AppendArgs)
    requires Ok(q) && q.currentTerm <= args.term
    ensures var (q', r) := HandleAppendEntries(q, args, true);
            && q'.currentTerm == args.term && r.term == q.currentTerm
            && (!r.success ==> args.prevLogIndex > 0)
  {
  }

  /** It commits what the leader has announced. */
  lemma CommitFollows(q: NodeState, args: AppendArgs)
    requires Ok(q) && q.currentTerm <= args.term && args.leaderCommit <= args.prevLogIndex + |args.entries|
    requires HandleAppendEntries(q, args, true).1.success
    ensures HandleAppendEntries(q, args, true).0.commitIndex >= args.leaderCommit
  {
  }

  /** What a leader makes of an answer. */
  lemma Heard(st: NodeState, p: NodeId, args: AppendArgs, r: AppendReply, m: nat)
    requires Ok(st) && st.role.Leader? && p in st.peers && r.term <= st.currentTerm
    requires m == args.prevLogIndex + |args.entries|
    ensures var st' := OnAppendReply(st, p, args, r);
            && (r.term < st.currentTerm ==> st' == st)
            && (r.term == st.currentTerm && r.success ==> st' == UpdateCommitIndex(Track(st, p, m)))
            && (r.term == st.currentTerm && !r.success && st.nextIndex[p] > 1 ==>
                  st' == st.(nextIndex := st.nextIndex[p := st.nextIndex[p] - 1]))
  {
  }

  /** The leader has taken in that `p` holds its whole log, and is otherwise as before. */
  predicate Tracked(st: NodeState, st': NodeState, p: NodeId) {
    && st.role.Leader? && st'.role.Leader? && st'.peers == st.peers && st'.currentTerm == st.currentTerm
    && st'.log == st.log && st.commitIndex <= st'.commitIndex
    && (forall m :: m in st.peers ==> m in st.matchIndex && m in st'.matchIndex)
    && p in st.peers && st'.matchIndex[p] >= |st.log|
    && (forall m :: m in st.peers && m != p ==> st'.matchIndex[m] == st.matchIndex[m])
    && (st.log != [] && Committable(st', |st.log|) ==> st'.commitIndex >= |st.log|)
  }

  lemma SuccessTracks(st: NodeState, p: NodeId)
    requires Ok(st) && st.role.Leader? && p in st.peers
    ensures Tracked(st, UpdateCommitIndex(Track(st, p, |st.log|)), p)
  {
    ScanReaches(Track(st, p, |st.log|));
  }

  /** The commit scan goes as far as a majority holds the log, if that ends in an entry of the current term. */
  lemma ScanReaches(st: NodeState)
    requires Ok(st)
    ensures var st' := UpdateCommitIndex(st);
            && st' == st.(commitIndex := st'.commitIndex, lastApplied := st'.lastApplied, applied := st'.applied)
            && st.commitIndex <= st'.commitIndex
            && (st.log != [] && Committable(st, |st.log|) ==> st'.commitIndex >= |st.log|)
  {
    if st.log != [] && Committable(st, |st.log|) && st.commitIndex < |st.log| {
      AdvanceIsLargest(st, st.commitIndex + 1, st.commitIndex, |st.log|);
    }
  }

  /** The outcome of a whole exchange. */
  predicate CaughtUp(s: System, s': System, n: NodeId, p: NodeId) {
    && n in s.nodes && p in s.nodes && s'.nodes.Keys == s.nodes.Keys
    && (forall m :: m in s.nodes && m != n && m != p ==> s'.nodes[m] == s.nodes[m])
    && Tracked(s.nodes[n], s'.nodes[n], p)
    && s'.nodes[p].currentTerm == s.nodes[n].currentTerm && s'.nodes[p].commitIndex >= s.nodes[n].commitIndex
  }

  lemma {:induction false} CatchUp(servers: set<NodeId>, run: seq<Action>, s: System, n: NodeId, p: NodeId)
    returns (run': seq<Action>, s': System)
    requires s == Exec(servers, run) && Leads(s, n, p) && s.nodes[p].currentTerm <= s.nodes[n].currentTerm
    ensures Exchange(run, run', n, p) && s' == Exec(servers, run') && CaughtUp(s, s', n, p)
    decreases Distance(s.nodes[n], s.nodes[p])
  {
    var run1, s1, done := Attempt(servers, run, s, n, p);
    if done {
      run', s' := run1, s1;
    } else {
      run', s' := CatchUp(servers, run1, s1, n, p);
      ExchangeJoin(run, run1, run', n, p);
      CaughtUpLater(s, s1, s', n, p);
    }
  }

  /** One round trip either succeeds, or brings the peer to the leader's term, or makes the leader look one entry further
      back. */
  lemma Attempt(servers: set<NodeId>, run: seq<Action>, s: System, n: NodeId, p: NodeId)
    returns (run': seq<Action>, s': System, done: bool)
    requires s == Exec(servers, run) && Leads(s, n, p) && s.nodes[p].currentTerm <= s.nodes[n].currentTerm
    ensures Exchange(run, run', n, p) && s' == Exec(servers, run')
    ensures done ==> CaughtUp(s, s', n, p)
    ensures !done ==> Closer(s, s', n, p)
  {
    var args, q, r;
    run', s', args, q, r := RoundTrip(servers, run, s, n, p);
    var st' := OnAppendReply(s.nodes[n], p, args, r);
    done := r.success && r.term == s.nodes[n].currentTerm;
    if done {
      SuccessOutcome(s.nodes[n], s.nodes[p], p, args, q, r, st');
      Succeeded(s, s', n, p, q, st');
    } else {
      FailureOutcome(s.nodes[n], s.nodes[p], p, args, q, r, st');
      Failed(s, s', n, p, q, st');
    }
  }

  lemma Succeeded(s: System, s': System, n: NodeId, p: NodeId, q: NodeState, st': NodeState)
    requires Leads(s, n, p) && s'.nodes == s.nodes[p := q][n := st']
    requires Tracked(s.nodes[n], st', p) && q.currentTerm == st'.currentTerm && q.commitIndex >= s.nodes[n].commitIndex
    ensures CaughtUp(s, s', n, p)
  {
  }

  lemma SuccessOutcome(st: NodeState, q: NodeState, p: NodeId, args: AppendArgs, q': NodeState, r: AppendReply, st': NodeState)
    requires Ok(st) && Ok(q) && CanSend(st, p) && args == Replicate(st, p) && q.currentTerm <= st.currentTerm
    requires (q', r) == HandleAppendEntries(q, args, true) && st' == OnAppendReply(st, p, args, r)
    requires r.success && r.term == st.currentTerm
    ensures Tracked(st, st', p) && q'.currentTerm == st'.currentTerm && q'.commitIndex >= st.commitIndex
  {
    Answered(q, args);
    CommitFollows(q, args);
    SuccessHeard(st, p, args, r);
  }

  lemma SuccessHeard(st: NodeState, p: NodeId, args: AppendArgs, r: AppendReply)
    requires Ok(st) && CanSend(st, p) && args == Replicate(st, p) && r.success && r.term == st.currentTerm
    ensures Tracked(st, OnAppendReply(st, p, args, r), p)
  {
    Heard(st, p, args, r, |st.log|);
    SuccessTracks(st, p);
  }

  lemma Failed(s: System, s': System, n: NodeId, p: NodeId, q: NodeState, st': NodeState)
    requires Leads(s, n, p) && AllOk(s') && s'.nodes == s.nodes[p := q][n := st']
    requires Backed(s.nodes[n], st', p, s.nodes[p].currentTerm) && q.currentTerm == st'.currentTerm
    ensures Closer(s, s', n, p)
  {
    TwoMoved(s.nodes, s'.nodes, n, p, q, st');
  }

  lemma TwoMoved(nodes: map<NodeId, NodeState>, nodes': map<NodeId, NodeState>, n: NodeId, p: NodeId,
                 q: NodeState, st: NodeState)
    requires n in nodes && p in nodes && n != p && nodes' == nodes[p := q][n := st]
    ensures nodes'.Keys == nodes.Keys && nodes'[n] == st && nodes'[p] == q
    ensures forall m :: m in nodes && m != n && m != p ==> nodes'[m] == nodes[m]
  {
  }

  /** The leader looks one entry further back, or nothing has changed because the peer was behind in its term. */
  predicate Backed(st: NodeState, st': NodeState, p: NodeId, term: nat) {
    && st' == st.(nextIndex := st'.nextIndex) && st'.role.Leader? && p in st.nextIndex && p in st'.nextIndex
    && (st'.nextIndex[p] < st.nextIndex[p] || (st'.nextIndex[p] == st.nextIndex[p] && term < st.currentTerm))
  }

  lemma FailureOutcome(st: NodeState, q: NodeState, p: NodeId, args: AppendArgs, q': NodeState, r: AppendReply, st': NodeState)
    requires Ok(st) && Ok(q) && CanSend(st, p) && args == Replicate(st, p) && q.currentTerm <= st.currentTerm
    requires (q', r) == HandleAppendEntries(q, args, true) && st' == OnAppendReply(st, p, args, r)
    requires !r.success || r.term != st.currentTerm
    ensures Backed(st, st', p, q.currentTerm) && q'.currentTerm == st'.currentTerm
  {
    Answered(q, args);
    FailureHeard(st, p, args, r);
  }

  lemma FailureHeard(st: NodeState, p: NodeId, args: AppendArgs, r: AppendReply)
    requires Ok(st) && CanSend(st, p) && args == Replicate(st, p) && r.term <= st.currentTerm
    requires !r.success || r.term != st.currentTerm
    requires !r.success ==> args.prevLogIndex > 0
    ensures Backed(st, OnAppendReply(st, p, args, r), p, r.term)
  {
    Heard(st, p, args, r, |st.log|);
  }

  predicate Closer(s: System, s': System, n: NodeId, p: NodeId) {
    && Leads(s, n, p) && Leads(s', n, p) && s'.nodes.Keys == s.nodes.Keys
    && (forall m :: m in s.nodes && m != n && m != p ==> s'.nodes[m] == s.nodes[m])
    && s'.nodes[n] == s.nodes[n].(nextIndex := s'.nodes[n].nextIndex)
    && s'.nodes[p].currentTerm == s.nodes[n].currentTerm
    && Distance(s'.nodes[n], s'.nodes[p]) < Distance(s.nodes[n], s.nodes[p])
  }

  /** How many round trips it takes at most. */
  function Distance(st: NodeState, q: NodeState): nat {
    (if q.id in st.nextIndex then st.nextIndex[q.id] else 0) + (if q.currentTerm < st.currentTerm then 1 else 0)
  }

  /** A round trip that did not succeed has changed nothing that matters. */
  lemma CaughtUpLater(s: System, s1: System, s': System, n: NodeId, p: NodeId)
    requires Closer(s, s1, n, p) && CaughtUp(s1, s', n, p)
    ensures CaughtUp(s, s', n, p)
  {
  }

  // ---- the theorems ----

  /** From every reachable state with a leader and a peer whose term is not ahead: after a finite exchange between the two
      the peer's log has the leader's log as a prefix and the leader knows it. */
  lemma PeerCatchesUp(servers: set<NodeId>, run: seq<Action>, n: NodeId, p: NodeId) returns (run': seq<Action>)
    requires n in servers && p in servers && n != p && Exec(servers, run).nodes[n].role.Leader?
    requires Exec(servers, run).nodes[p].currentTerm <= Exec(servers, run).nodes[n].currentTerm
    ensures Exchange(run, run', n, p)
    ensures var st, st', q' := Exec(servers, run).nodes[n], Exec(servers, run').nodes[n], Exec(servers, run').nodes[p];
            && st'.role.Leader? && st'.currentTerm == st.currentTerm == q'.currentTerm && st'.log == st.log
            && p in st'.matchIndex && st'.matchIndex[p] == |st.log| && st.log <= q'.log
  {
    var s';
    run', s' := CatchUp(servers, run, Exec(servers, run), n, p);
    RunKeeps(servers, run');
    MatchIsHeld(s', HistoryOf(servers, run'), n, p);
  }

  lemma MatchIsHeld(s: System, h: History, n: NodeId, p: NodeId)
    requires Leads(s, n, p) && s.nodes[p].currentTerm == s.nodes[n].currentTerm
    requires s.nodes[n].matchIndex[p] >= |s.nodes[n].log|
    requires ReignsInv(s, h) && LogsInv(s, h) && ProgressInv(s, h) && AcksOk(s, h) && NodesKeep(s, h)
    ensures s.nodes[n].matchIndex[p] == |s.nodes[n].log| && s.nodes[n].log <= s.nodes[p].log
  {
    var st, k := s.nodes[n], Slot(p, s.nodes[n].currentTerm);
    assert NodeLogOk(h, st) && ReignOk(h, st.currentTerm) && ProgressOk(h, st, p);
    assert AckOk(s, h, k) && NodeKeeps(h, s.nodes[p], k.term);
    AckIsHeld(h, s.nodes[p], st.log, k.term);
  }

  /** A node in the term of a leader holds what it has confirmed to that leader. */
  lemma AckIsHeld(h: History, q: NodeState, log: seq<Entry>, t: nat)
    requires Slot(q.id, t) in h.acks && t in h.reigns && h.reigns[t].log == log && h.acks[Slot(q.id, t)] == |log|
    requires q.currentTerm == t && NodeKeeps(h, q, t)
    ensures log <= q.log
  {
    assert Survives(h, t, |log|, q.currentTerm);
    assert log[..|log|] == log;
  }

  lemma Dethroned(st: NodeState, q: NodeState, p: NodeId, args: AppendArgs)
    requires Ok(st) && Ok(q) && p in st.peers && args.term == st.currentTerm < q.currentTerm
    ensures var (q', r) := HandleAppendEntries(q, args, true);
            q' == q && OnAppendReply(st, p, args, r) == StepDown(st, q.currentTerm)
  {
  }

  /** A peer that is ahead makes the leader step down at the first answer. */
  lemma PeerDethrones(servers: set<NodeId>, run: seq<Action>, n: NodeId, p: NodeId) returns (run': seq<Action>)
    requires n in servers && p in servers && n != p && Exec(servers, run).nodes[n].role.Leader?
    requires Exec(servers, run).nodes[p].currentTerm > Exec(servers, run).nodes[n].currentTerm
    ensures Exchange(run, run', n, p)
    ensures var s, s' := Exec(servers, run), Exec(servers, run');
            s'.nodes == s.nodes[n := StepDown(s.nodes[n], s.nodes[p].currentTerm)]
  {
    var s := Exec(servers, run);
    var s', args, q, r;
    run', s', args, q, r := RoundTrip(servers, run, s, n, p);
    Dethroned(s.nodes[n], s.nodes[p], p, args);
    assert s.nodes[p := q] == s.nodes;
  }
}
