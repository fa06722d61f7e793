/** What Raft promises, for every run of a cluster with a fixed set of voters: every statement ranges over all
    action sequences, and statements about two nodes compare them at two arbitrary moments of the run. */
module RaftTheorems {
  import opened Options
  import opened RaftTypes
  import opened RaftSpec
  import opened RaftSystem
  import opened RaftHistory
  import opened RaftFrame
  import opened RaftElection
  import opened RaftCampaign
  import opened RaftLogMatching
  import opened RaftCompleteness
  import opened RaftLeader
  import opened RaftWin
  import opened RaftFollower
  import opened RaftAccept
  import opened RaftSafety

  ghost function HistoryOf(servers: set<NodeId>, run: seq<Action>): History {
    if run == [] then NoHistory
    else Record(Exec(servers, run[..|run| - 1]), run[|run| - 1], HistoryOf(servers, run[..|run| - 1]))
  }

  lemma {:induction false} RunKeeps(servers: set<NodeId>, run: seq<Action>)
    ensures Inv(Exec(servers, run), HistoryOf(servers, run))
  {
    if run == [] {
      InitOk(servers);
    } else {
      var before := run[..|run| - 1];
      RunKeeps(servers, before);
      StepKeeps(Exec(servers, before), run[|run| - 1], HistoryOf(servers, before));
    }
  }

  // ---- histories grow along a run ----

  lemma RecordGrows(s: System, a: Action, h: History)
    requires AllOk(s) && ReignsInv(s, h) && LogsInv(s, h) && VotesInv(s, h) && AcksOk(s, h)
    ensures Grows(h, Record(s, a, h))
  {
    if !Enabled(s, a) || a.Campaign? || a.ReceiveVoteReply? || a.Send? || a.ReceiveAppendReply? {
      NoRecord(s, a, h);
      SameHistory(h, 0, 0);
    } else if a.Timeout? {
      TimeoutGrows(s, h, a.n);
    } else if a.ReceiveVoteRequest? {
      VoteGrows(s, h, a.n, a.vote);
    } else if a.Win? {
      WinGrows(s, h, a.n, a.term, a.diskOk);
    } else if a.Submit? {
      SubmitGrows(s, h, a.n, a.command, a.diskOk);
    } else {
      AppendGrows(s, h, a.n, a.append, a.diskOk);
    }
  }

  lemma NoRecord(s: System, a: Action, h: History)
    requires AllOk(s)
    requires !Enabled(s, a) || a.Campaign? || a.ReceiveVoteReply? || a.Send? || a.ReceiveAppendReply?
    ensures Record(s, a, h) == h
  {
  }

  lemma AppendGrows(s: System, h: History, n: NodeId, args: AppendArgs, diskOk: bool)
    requires AllOk(s) && Enabled(s, ReceiveAppend(n, args, diskOk))
    ensures Grows(h, Record(s, ReceiveAppend(n, args, diskOk), h))
  {
    SameHistory(h, 0, 0);
    ConfirmMoves(h, n, args.term, Covered(args), Confirm(h, Slot(n, args.term), Covered(args)));
  }

  lemma TimeoutGrows(s: System, h: History, n: NodeId)
    requires AllOk(s) && VotesInv(s, h) && Enabled(s, Timeout(n))
    ensures Grows(h, Record(s, Timeout(n), h))
  {
    SameHistory(h, 0, 0);
    FreshTerm(s, h, n, s.nodes[n].currentTerm + 1);
    var _ := NewBallot(h, Slot(n, s.nodes[n].currentTerm + 1), Ballot(n, s.nodes[n].log));
  }

  lemma VoteGrows(s: System, h: History, n: NodeId, vote: VoteArgs)
    requires AllOk(s) && Enabled(s, ReceiveVoteRequest(n, vote))
    ensures Grows(h, Record(s, ReceiveVoteRequest(n, vote), h))
  {
    SameHistory(h, 0, 0);
    if Slot(n, vote.term) !in h.ballots {
      var _ := NewBallot(h, Slot(n, vote.term), Ballot(vote.candidate, s.nodes[n].log));
    }
  }

  lemma WinGrows(s: System, h: History, n: NodeId, term: nat, diskOk: bool)
    requires AllOk(s) && ReignsInv(s, h) && LogsInv(s, h) && VotesInv(s, h) && AcksOk(s, h)
    requires Enabled(s, Win(n, term, diskOk))
    ensures Grows(h, Record(s, Win(n, term, diskOk), h))
  {
    SameHistory(h, 0, 0);
    if s.nodes[n].role.Candidate? && s.nodes[n].currentTerm == term {
      TermIsFree(s, h, n);
      var k := Slot(n, term);
      assert k in h.acks ==> AckOk(s, h, k);
      var _ := WinMoves(h, s.nodes[n]);
    }
  }

  lemma SubmitGrows(s: System, h: History, n: NodeId, command: string, diskOk: bool)
    requires AllOk(s) && ReignsInv(s, h) && LogsInv(s, h) && Enabled(s, Submit(n, command, diskOk))
    ensures Grows(h, Record(s, Submit(n, command, diskOk), h))
  {
    SameHistory(h, 0, 0);
    if s.nodes[n].role.Leader? {
      var t := s.nodes[n].currentTerm;
      assert NodeLogOk(h, s.nodes[n]) && Elected(s, h, t);
      var _ := ExtendMoves(h, t, Entry(t, Some(command)));
    }
  }

  lemma GrowsTransitive(a: History, b: History, c: History)
    requires Grows(a, b) && Grows(b, c)
    ensures Grows(a, c)
  {
    forall t | t in a.reigns
      ensures t in c.reigns && c.reigns[t] == a.reigns[t].(log := c.reigns[t].log) && a.reigns[t].log <= c.reigns[t].log
    {
      assert a.reigns[t].log <= b.reigns[t].log <= c.reigns[t].log;
    }
  }

  lemma {:induction false} RunGrows(servers: set<NodeId>, run: seq<Action>, i: nat)
    requires i <= |run|
    ensures Grows(HistoryOf(servers, run[..i]), HistoryOf(servers, run))
    decreases |run|
  {
    if i == |run| {
      assert run[..i] == run;
      SameHistory(HistoryOf(servers, run), 0, 0);
    } else {
      var before := run[..|run| - 1];
      assert before[..i] == run[..i];
      RunGrows(servers, before, i);
      RunKeeps(servers, before);
      RecordGrows(Exec(servers, before), run[|run| - 1], HistoryOf(servers, before));
      GrowsTransitive(HistoryOf(servers, run[..i]), HistoryOf(servers, before), HistoryOf(servers, run));
    }
  }

  /** The node `n` after the first `i` actions of a run. */
  function NodeAt(servers: set<NodeId>, run: seq<Action>, i: nat, n: NodeId): NodeState
    requires i <= |run| && n in servers
  {
    Exec(servers, run[..i]).nodes[n]
  }

  // ---- the theorems ----

  /** What the final history says about a node at an earlier moment. */
  lemma Moment(servers: set<NodeId>, run: seq<Action>, i: nat, n: NodeId)
    requires i <= |run| && n in servers
    ensures var st, h := NodeAt(servers, run, i, n), HistoryOf(servers, run);
            && Ok(st) && Sound(h, st.log)
            && CommittedBy(Exec(servers, run), h, st.log[..st.commitIndex], st.currentTerm)
            && st.applied == Span(st.log, 0, st.lastApplied)
            && (st.wal.Some? ==> Rebuild([], st.wal.value) == st.log)
            && (st.role.Leader? ==>
                  && st.currentTerm in h.reigns && h.reigns[st.currentTerm].leader == n
                  && h.reigns[st.currentTerm].start <= st.log <= h.reigns[st.currentTerm].log
                  && forall p :: p in st.peers ==> CanSend(st, p))
  {
    RunKeeps(servers, run[..i]);
    RunGrows(servers, run, i);
    MomentIn(Exec(servers, run[..i]), HistoryOf(servers, run[..i]), n, Exec(servers, run), HistoryOf(servers, run));
  }

  lemma MomentIn(s: System, h: History, n: NodeId, s': System, h': History)
    requires Inv(s, h) && n in s.nodes && Grows(h, h') && s'.nodes.Keys == s.nodes.Keys
    ensures var st := s.nodes[n];
            && Sound(h', st.log)
            && CommittedBy(s', h', st.log[..st.commitIndex], st.currentTerm)
            && st.applied == Span(st.log, 0, st.lastApplied)
            && (st.wal.Some? ==> Rebuild([], st.wal.value) == st.log)
            && (st.role.Leader? ==>
                  && st.currentTerm in h'.reigns && h'.reigns[st.currentTerm].leader == st.id
                  && h'.reigns[st.currentTerm].start <= st.log <= h'.reigns[st.currentTerm].log
                  && forall p :: p in st.peers ==> CanSend(st, p))
  {
    var st := s.nodes[n];
    assert NodeLogOk(h, st) && NodeCommitOk(s, h, st);
    SoundGrows(h, h', st.log);
    CommittedGrows(s, s', h, h', st.log[..st.commitIndex], st.currentTerm, st.currentTerm);
    if st.role.Leader? {
      StartInLog(s, h, st.currentTerm);
      forall p | p in st.peers ensures CanSend(st, p) { assert ProgressOk(h, st, p); }
    }
  }

  lemma MomentSound(servers: set<NodeId>, run: seq<Action>, i: nat, n: NodeId)
    requires i <= |run| && n in servers
    ensures Sound(HistoryOf(servers, run), NodeAt(servers, run, i, n).log)
  {
    Moment(servers, run, i, n);
  }

  /** Election safety: whenever two nodes lead in the same term, they are the same node. */
  lemma ElectionSafety(servers: set<NodeId>, run: seq<Action>, i: nat, n: NodeId, j: nat, m: NodeId)
    requires i <= |run| && j <= |run| && n in servers && m in servers
    requires NodeAt(servers, run, i, n).role.Leader? && NodeAt(servers, run, j, m).role.Leader?
    requires NodeAt(servers, run, i, n).currentTerm == NodeAt(servers, run, j, m).currentTerm
    ensures n == m
  {
    Moment(servers, run, i, n);
    Moment(servers, run, j, m);
  }

  /** Log matching: two logs that agree on the term at an index agree on everything up to it. */
  lemma LogMatching(servers: set<NodeId>, run: seq<Action>, i: nat, n: NodeId, j: nat, m: NodeId, k: nat)
    requires i <= |run| && j <= |run| && n in servers && m in servers
    requires var a, b := NodeAt(servers, run, i, n).log, NodeAt(servers, run, j, m).log;
             1 <= k <= |a| && k <= |b| && TermAt(a, k) == TermAt(b, k)
    ensures NodeAt(servers, run, i, n).log[..k] == NodeAt(servers, run, j, m).log[..k]
  {
    MomentSound(servers, run, i, n);
    MomentSound(servers, run, j, m);
    TermsMatch(HistoryOf(servers, run), NodeAt(servers, run, i, n).log, NodeAt(servers, run, j, m).log, k);
  }

  lemma TermsMatch(h: History, a: seq<Entry>, b: seq<Entry>, k: nat)
    requires Sound(h, a) && Sound(h, b) && 1 <= k <= |a| && k <= |b| && TermAt(a, k) == TermAt(b, k)
    ensures a[..k] == b[..k]
  {
    LogsMatch(h, a, b, k - 1);
  }

  /** Leader completeness: what a quorum has confirmed in term `t` by some moment, up to an entry of that term, is in
      the log of every leader of a later term, at any moment, even an earlier one. */
  lemma CommittedReachesLeaders(servers: set<NodeId>, run: seq<Action>, i: nat, t: nat, k: nat, j: nat, m: NodeId)
    requires i <= |run| && j <= |run| && m in servers
    requires Committed(Exec(servers, run[..i]), HistoryOf(servers, run[..i]), t, k)
    requires NodeAt(servers, run, j, m).role.Leader? && NodeAt(servers, run, j, m).currentTerm > t
    ensures HistoryOf(servers, run[..i]).reigns[t].log[..k] <= NodeAt(servers, run, j, m).log
  {
    RunGrows(servers, run, i);
    RunKeeps(servers, run);
    Moment(servers, run, j, m);
    var s, h := Exec(servers, run), HistoryOf(servers, run);
    CommittedLater(Exec(servers, run[..i]), HistoryOf(servers, run[..i]), s, h, t, k);
    LeaderCompleteness(s, h, t, k, NodeAt(servers, run, j, m).currentTerm);
  }

  lemma CommittedLater(s: System, h: History, s': System, h': History, t: nat, k: nat)
    requires Grows(h, h') && s.nodes.Keys == s'.nodes.Keys && Committed(s, h, t, k)
    ensures Committed(s', h', t, k) && h'.reigns[t].log[..k] == h.reigns[t].log[..k]
  {
    QuorumGrows(s.nodes.Keys, Holding(s, h, t, k), Holding(s', h', t, k));
  }

  /** Whatever a node holds as committed was confirmed by a quorum in some term up to its own. */
  lemma CommitHasTerm(servers: set<NodeId>, run: seq<Action>, i: nat, n: NodeId) returns (t: nat, k: nat)
    requires i <= |run| && n in servers && NodeAt(servers, run, i, n).commitIndex > 0
    ensures t <= NodeAt(servers, run, i, n).currentTerm
    ensures Committed(Exec(servers, run[..i]), HistoryOf(servers, run[..i]), t, k)
    ensures var st := NodeAt(servers, run, i, n);
            st.log[..st.commitIndex] <= HistoryOf(servers, run[..i]).reigns[t].log[..k]
  {
    RunKeeps(servers, run[..i]);
    t, k := NodeHasTerm(Exec(servers, run[..i]), HistoryOf(servers, run[..i]), n);
  }

  lemma NodeHasTerm(s: System, h: History, n: NodeId) returns (t: nat, k: nat)
    requires AllOk(s) && CommitInv(s, h) && n in s.nodes && s.nodes[n].commitIndex > 0
    ensures t <= s.nodes[n].currentTerm && Committed(s, h, t, k)
    ensures var st := s.nodes[n]; st.log[..st.commitIndex] <= h.reigns[t].log[..k]
  {
    var st := s.nodes[n];
    assert NodeCommitOk(s, h, st);
    t, k := Witness(s, h, st.log[..st.commitIndex], st.currentTerm);
  }

  /** State machine safety: what two nodes have applied never disagrees; one is a prefix of the other. */
  lemma StateMachineSafety(servers: set<NodeId>, run: seq<Action>, i: nat, n: NodeId, j: nat, m: NodeId)
    requires i <= |run| && j <= |run| && n in servers && m in servers
    ensures var a, b := NodeAt(servers, run, i, n).applied, NodeAt(servers, run, j, m).applied; a <= b || b <= a
  {
    Moment(servers, run, i, n);
    Moment(servers, run, j, m);
    RunKeeps(servers, run);
    var a, b := NodeAt(servers, run, i, n), NodeAt(servers, run, j, m);
    CommittedAgree(Exec(servers, run), HistoryOf(servers, run),
                   a.log[..a.commitIndex], a.currentTerm, b.log[..b.commitIndex], b.currentTerm);
    SpansAgree(a.log, a.commitIndex, b.log, b.commitIndex);
  }

  lemma SpansAgree(a: seq<Entry>, c: nat, b: seq<Entry>, d: nat)
    requires c <= |a| && d <= |b| && (a[..c] <= b[..d] || b[..d] <= a[..c])
    ensures Span(a, 0, c) <= Span(b, 0, d) || Span(b, 0, d) <= Span(a, 0, c)
  {
    var k := if c <= d then c else d;
    forall i | 0 <= i < k ensures a[i] == b[i] {
      assert a[..c][i] == b[..d][i];
    }
  }

  /** Every node applies the entries of its log from index 1 on, each once and in order. */
  lemma AppliedInOrder(servers: set<NodeId>, run: seq<Action>, n: NodeId)
    requires n in servers
    ensures var st := Exec(servers, run).nodes[n];
            && |st.applied| == st.lastApplied == st.commitIndex <= |st.log|
            && forall i :: 0 <= i < |st.applied| ==> st.applied[i] == Applied(i + 1, st.log[i])
  {
    assert run[..|run|] == run;
    Moment(servers, run, |run|, n);
  }

  /** What a node has committed stays where it is. */
  predicate Keeps(st: NodeState, st': NodeState) {
    && st.commitIndex <= st'.commitIndex && st.lastApplied <= st'.lastApplied
    && st.commitIndex <= |st.log| && st.log[..st.commitIndex] <= st'.log
  }

  /** Over any two moments of a run: neither the commit index nor the apply position ever falls, and the entries up to
      the commit index are never replaced. */
  lemma CommittedStays(servers: set<NodeId>, run: seq<Action>, i: nat, j: nat, n: NodeId)
    requires i <= j <= |run| && n in servers
    ensures Keeps(NodeAt(servers, run, i, n), NodeAt(servers, run, j, n))
  {
    var states := seq(|run| + 1, k requires 0 <= k <= |run| => NodeAt(servers, run, k, n));
    forall k | 0 <= k < |run| ensures Keeps(states[k], states[k + 1]) {
      MomentCommits(servers, run, k, n);
    }
    KeepsSelf(states[i]);
    KeepsChain(states, i, j);
  }

  lemma {:induction false} KeepsChain(states: seq<NodeState>, i: nat, j: nat)
    requires i <= j < |states| && Keeps(states[i], states[i])
    requires forall k :: 0 <= k < |states| - 1 ==> Keeps(states[k], states[k + 1])
    ensures Keeps(states[i], states[j])
    decreases j
  {
    if i < j {
      KeepsChain(states, i, j - 1);
      assert Keeps(states[j - 1], states[j - 1 + 1]);
      KeepsTransitive(states[i], states[j - 1], states[j]);
    }
  }

  lemma KeepsTransitive(a: NodeState, b: NodeState, c: NodeState)
    requires Keeps(a, b) && Keeps(b, c)
    ensures Keeps(a, c)
  {
    assert forall i :: 0 <= i < a.commitIndex ==> a.log[..a.commitIndex][i] == a.log[i];
    assert forall i :: 0 <= i < b.commitIndex ==> b.log[..b.commitIndex][i] == b.log[i];
    assert a.log[..a.commitIndex] == c.log[..a.commitIndex];
  }

  lemma KeepsSelf(st: NodeState)
    requires Ok(st)
    ensures Keeps(st, st)
  {
  }

  lemma MomentCommits(servers: set<NodeId>, run: seq<Action>, j: nat, n: NodeId)
    requires j < |run| && n in servers
    ensures Keeps(NodeAt(servers, run, j, n), NodeAt(servers, run, j + 1, n))
  {
    assert run[..j + 1][..j] == run[..j];
    NextCommits(servers, run[..j], run[j], n);
  }

  lemma NextCommits(servers: set<NodeId>, run: seq<Action>, a: Action, n: NodeId)
    requires n in servers
    ensures Keeps(Exec(servers, run).nodes[n], Step(Exec(servers, run), a).nodes[n])
  {
    RunKeeps(servers, run);
    StepCommits(Exec(servers, run), HistoryOf(servers, run), a, n);
  }

  lemma StepCommits(s: System, h: History, a: Action, n: NodeId)
    requires Inv(s, h) && n in s.nodes
    ensures Keeps(s.nodes[n], Step(s, a).nodes[n])
  {
    NodeMovesAlone(s, a, n);
    if Enabled(s, a) && a.n == n {
      if a.ReceiveAppend? {
        assert AppendMessageOk(s, h, AppendRequest(n, a.append));
        AppendCommits(s, h, n, a.append, a.diskOk);
      } else {
        OthersCommit(s.nodes[n], a);
      }
    } else {
      KeepsSelf(s.nodes[n]);
    }
  }

  /** An action moves its own node, by the node's handler, and no other. */
  lemma NodeMovesAlone(s: System, a: Action, n: NodeId)
    requires AllOk(s) && n in s.nodes
    ensures Step(s, a).nodes[n] == if Enabled(s, a) && a.n == n then Act(s.nodes[n], a).0 else s.nodes[n]
  {
  }

  lemma ScanCommits(st: NodeState)
    requires Ok(st)
    ensures Keeps(st, UpdateCommitIndex(st))
  {
  }

  lemma LocalCommits(st: NodeState, e: Entry)
    requires Ok(st)
    ensures Keeps(st, AppendLocal(st, e))
  {
    ScanCommits(st.(log := st.log + [e], wal := Persist(st.wal, [Encode(|st.log| + 1, e)])));
  }

  lemma OthersCommit(st: NodeState, a: Action)
    requires Ok(st) && !a.ReceiveAppend? && (a.Send? ==> CanSend(st, a.peer)) && (a.ReceiveAppendReply? ==> a.from in st.peers)
    ensures Keeps(st, Act(st, a).0)
  {
    match a
    case Win(n, term, diskOk) => WinCommits(st, term, diskOk);
    case Submit(n, command, diskOk) => SubmitCommits(st, command, diskOk);
    case ReceiveAppendReply(n, from, append, result) => ReplyCommits(st, from, append, result);
    case _ => ElectionCommits(st, a);
  }

  lemma ElectionCommits(st: NodeState, a: Action)
    requires Ok(st) && (a.Send? ==> CanSend(st, a.peer))
    requires a.Timeout? || a.Campaign? || a.ReceiveVoteRequest? || a.ReceiveVoteReply? || a.Send?
    ensures Keeps(st, Act(st, a).0)
  {
    SameCommits(st, Act(st, a).0);
  }

  lemma WinCommits(st: NodeState, term: nat, diskOk: bool)
    requires Ok(st)
    ensures Keeps(st, TryBecomeLeader(st, term, diskOk))
  {
    KeepsSelf(st);
    LocalCommits(Crowned(st), Entry(term, None));
  }

  lemma SubmitCommits(st: NodeState, command: string, diskOk: bool)
    requires Ok(st)
    ensures Keeps(st, Propose(st, command, diskOk))
  {
    KeepsSelf(st);
    LocalCommits(st, Entry(st.currentTerm, Some(command)));
  }

  lemma ReplyCommits(st: NodeState, from: NodeId, args: AppendArgs, reply: AppendReply)
    requires Ok(st) && from in st.peers
    ensures Keeps(st, OnAppendReply(st, from, args, reply))
  {
    KeepsSelf(st);
    if st.role.Leader? { ScanCommits(Track(st, from, args.prevLogIndex + |args.entries|)); }
  }

  lemma AppendCommits(s: System, h: History, n: NodeId, args: AppendArgs, diskOk: bool)
    requires AllOk(s) && LogsInv(s, h) && ReignsInv(s, h) && AcksInv(s, h) && CommitInv(s, h) && n in s.nodes
    requires AppendArgsOk(s, h, args)
    ensures Keeps(s.nodes[n], HandleAppendEntries(s.nodes[n], args, diskOk).0)
  {
    var st := s.nodes[n];
    if Refuses(st, args, diskOk) {
      RefusedState(st, args, diskOk);
      SameCommits(st, HandleAppendEntries(st, args, diskOk).0);
    } else {
      IsAcceptable(s, h, n, args);
      AcceptCommits(s, h, st, args, diskOk);
    }
  }

  lemma SameCommits(st: NodeState, st': NodeState)
    requires Ok(st) && st'.log == st.log && st'.commitIndex == st.commitIndex && st'.lastApplied == st.lastApplied
    ensures Keeps(st, st')
  {
  }

  lemma AcceptCommits(s: System, h: History, st: NodeState, args: AppendArgs, diskOk: bool)
    requires Acceptable(s, h, st, args) && !Refuses(st, args, diskOk)
    ensures Keeps(st, HandleAppendEntries(st, args, diskOk).0)
  {
    HandlerAccepts(s, h, st, args, diskOk);
    MergeKeepsCommitted(s, h, st, args);
  }

  /** The branch that rolls the apply position back never fires: whatever request reaches a node in any run, an entry
      that the merge loop would overwrite lies above both the commit index and the apply position. */
  lemma RollbackNeverFires(servers: set<NodeId>, run: seq<Action>, n: NodeId, args: AppendArgs, k: nat)
    requires n in servers && AppendRequest(n, args) in Exec(servers, run).msgs
    requires var st := Exec(servers, run).nodes[n];
             && st.currentTerm <= args.term && args.prevLogIndex <= |st.log|
             && (args.prevLogIndex > 0 ==> TermAt(st.log, args.prevLogIndex) == args.prevLogTerm)
    requires var st := Exec(servers, run).nodes[n];
             && k < |args.entries| && args.prevLogIndex + k < |st.log|
             && st.log[args.prevLogIndex + k].term != args.entries[k].term
    ensures var st := Exec(servers, run).nodes[n];
            st.commitIndex < args.prevLogIndex + 1 + k && st.lastApplied < args.prevLogIndex + 1 + k
  {
    RunKeeps(servers, run);
    var s, h := Exec(servers, run), HistoryOf(servers, run);
    assert AppendMessageOk(s, h, AppendRequest(n, args));
    IsAcceptable(s, h, n, args);
    ConflictAboveCommit(s, h, s.nodes[n], args);
  }

  /** As long as no write has failed, replaying the durable records rebuilds the log in memory. */
  lemma DurableLogRebuilds(servers: set<NodeId>, run: seq<Action>, n: NodeId)
    requires n in servers
    ensures var st := Exec(servers, run).nodes[n]; st.wal.Some? ==> Rebuild([], st.wal.value) == st.log
  {
    assert run[..|run|] == run;
    Moment(servers, run, |run|, n);
  }

  /** A leader can always send to each of its peers: the slice of the log it takes exists. */
  lemma LeaderCanSend(servers: set<NodeId>, run: seq<Action>, n: NodeId, peer: NodeId)
    requires n in servers && peer in servers && peer != n && Exec(servers, run).nodes[n].role.Leader?
    ensures CanSend(Exec(servers, run).nodes[n], peer)
  {
    RunKeeps(servers, run);
    InvCanSend(Exec(servers, run), HistoryOf(servers, run), n, peer);
  }

  lemma InvCanSend(s: System, h: History, n: NodeId, peer: NodeId)
    requires AllOk(s) && ProgressInv(s, h) && n in s.nodes && peer in s.nodes && peer != n && s.nodes[n].role.Leader?
    ensures CanSend(s.nodes[n], peer)
  {
    assert ProgressOk(h, s.nodes[n], peer);
  }
}
