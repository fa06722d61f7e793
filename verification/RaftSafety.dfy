/** The safety theorems of the cluster, for every run. */
module RaftSafety {
  import opened Options
  import opened RaftTypes
  import opened RaftSpec
  import opened RaftSystem
  import opened RaftHistory
  import opened RaftFrame
  import opened RaftElection
  import opened RaftCampaign
  import opened RaftLogMatching
  import opened RaftCompleteness
  import opened RaftLeader
  import opened RaftWin
  import opened RaftReplies
  import opened RaftFollower
  import opened RaftAccept

  const NoHistory: History := History(map[], map[], map[])

  lemma InitOk(servers: set<NodeId>)
    ensures Inv(Init(servers), NoHistory)
  {
    var s, h := Init(servers), NoHistory;
    assert ReignsInv(s, h) && LogsInv(s, h) && VotesInv(s, h);
    assert forall n :: n in s.nodes ==> s.nodes[n] == NewNode(n, servers);
    assert CommitInv(s, h);
  }

  // ---- one step: what it computes, then that the invariant holds of that ----

  lemma TimeoutResult(s: System, h: History, n: NodeId) returns (s': System, h': History)
    requires AllOk(s) && Enabled(s, Timeout(n))
    ensures s' == Step(s, Timeout(n)) && h' == Record(s, Timeout(n), h)
    ensures if s.nodes[n].role.Leader? then s' == s && h' == h
            else var st' := BecomeCandidate(s.nodes[n]);
                 && s' == Replace(s, st', {})
                 && h' == h.(ballots := h.ballots[Slot(n, st'.currentTerm) := Ballot(n, st'.log)])
  {
    s', h' := Step(s, Timeout(n)), Record(s, Timeout(n), h);
    Unmoved(s, n);
  }

  lemma TimeoutKeeps(s: System, h: History, n: NodeId)
    requires Inv(s, h) && Enabled(s, Timeout(n))
    ensures Inv(Step(s, Timeout(n)), Record(s, Timeout(n), h))
  {
    var s', h' := TimeoutResult(s, h, n);
    if !s.nodes[n].role.Leader? { TimeoutStep(s, h, n, BecomeCandidate(s.nodes[n]), s', h'); }
  }

  lemma CampaignKeeps(s: System, h: History, n: NodeId)
    requires Inv(s, h) && Enabled(s, Campaign(n))
    ensures Inv(Step(s, Campaign(n)), Record(s, Campaign(n), h))
  {
    CampaignStep(s, h, n, StartElection(s.nodes[n]).0, Step(s, Campaign(n)));
  }

  lemma VoteResult(s: System, h: History, n: NodeId, vote: VoteArgs) returns (s': System, h': History)
    requires AllOk(s) && Enabled(s, ReceiveVoteRequest(n, vote))
    ensures s' == Step(s, ReceiveVoteRequest(n, vote)) && h' == Record(s, ReceiveVoteRequest(n, vote), h)
    ensures var (st', r) := HandleRequestVote(s.nodes[n], vote); s' == Replace(s, st', {VoteResponse(n, vote, r)})
    ensures h' == VoteHistory(s.nodes[n], vote, h)
  {
    s', h' := Step(s, ReceiveVoteRequest(n, vote)), Record(s, ReceiveVoteRequest(n, vote), h);
  }

  lemma VoteKeeps(s: System, h: History, n: NodeId, vote: VoteArgs)
    requires Inv(s, h) && Enabled(s, ReceiveVoteRequest(n, vote))
    ensures Inv(Step(s, ReceiveVoteRequest(n, vote)), Record(s, ReceiveVoteRequest(n, vote), h))
  {
    var s', h' := VoteResult(s, h, n, vote);
    var (st', granted) := HandleRequestVote(s.nodes[n], vote);
    VoteStep(s, h, n, vote, st', VoteResponse(n, vote, granted), h');
  }

  lemma CountKeeps(s: System, h: History, n: NodeId, from: NodeId, vote: VoteArgs, reply: VoteReply)
    requires Inv(s, h) && Enabled(s, ReceiveVoteReply(n, from, vote, reply))
    ensures Inv(Step(s, ReceiveVoteReply(n, from, vote, reply)), Record(s, ReceiveVoteReply(n, from, vote, reply), h))
  {
    var st' := OnVoteReply(s.nodes[n], from, vote, reply);
    CountStep(s, h, n, from, vote, reply, st', Replace(s, st', {}));
  }

  lemma LoseDisk(s: System, h: History, n: NodeId, s': System)
    requires Inv(s, h) && n in s.nodes && s' == Replace(s, s.nodes[n].(wal := None), {})
    ensures Inv(s', h)
  {
    var st' := s.nodes[n].(wal := None);
    assert NodeVoteOk(h, s.nodes[n]);
    SameHistory(h, n, st'.currentTerm);
    var _ := QuietFrom(s, st', {}, h, h);
    VoteBallots(s, h, n, s', h);
    QuietStep(s, s', h, h, n);
  }

  lemma WinResult(s: System, h: History, n: NodeId, term: nat, diskOk: bool) returns (s': System, h': History)
    requires AllOk(s) && Enabled(s, Win(n, term, diskOk))
    ensures s' == Step(s, Win(n, term, diskOk)) && h' == Record(s, Win(n, term, diskOk), h)
    ensures var st := s.nodes[n];
            if !st.role.Candidate? || st.currentTerm != term then s' == s && h' == h
            else if !diskOk then s' == Replace(s, st.(wal := None), {}) && h' == h
            else Wins(s, h, n) && h' == WinHistory(st, h)
                 && s' == Replace(s, AppendLocal(Crowned(st), Entry(st.currentTerm, None)), {})
  {
    s', h' := Step(s, Win(n, term, diskOk)), Record(s, Win(n, term, diskOk), h);
    Unmoved(s, n);
  }

  lemma WinKeeps(s: System, h: History, n: NodeId, term: nat, diskOk: bool)
    requires Inv(s, h) && Enabled(s, Win(n, term, diskOk))
    ensures Inv(Step(s, Win(n, term, diskOk)), Record(s, Win(n, term, diskOk), h))
  {
    var s', h' := WinResult(s, h, n, term, diskOk);
    if s.nodes[n].role.Candidate? && s.nodes[n].currentTerm == term {
      if diskOk { WinStep(s, h, n, s', h'); } else { LoseDisk(s, h, n, s'); }
    }
  }

  lemma SubmitResult(s: System, h: History, n: NodeId, command: string, diskOk: bool) returns (s': System, h': History)
    requires AllOk(s) && Enabled(s, Submit(n, command, diskOk))
    ensures s' == Step(s, Submit(n, command, diskOk)) && h' == Record(s, Submit(n, command, diskOk), h)
    ensures var st := s.nodes[n];
            if !st.role.Leader? then s' == s && h' == h
            else if !diskOk then s' == Replace(s, st.(wal := None), {}) && h' == h
            else var e := Entry(st.currentTerm, Some(command));
                 s' == Replace(s, AppendLocal(st, e), {}) && h' == Extend(h, e.term, e)
  {
    s', h' := Step(s, Submit(n, command, diskOk)), Record(s, Submit(n, command, diskOk), h);
    Unmoved(s, n);
  }

  lemma SubmitKeeps(s: System, h: History, n: NodeId, command: string, diskOk: bool)
    requires Inv(s, h) && Enabled(s, Submit(n, command, diskOk))
    ensures Inv(Step(s, Submit(n, command, diskOk)), Record(s, Submit(n, command, diskOk), h))
  {
    var s', h' := SubmitResult(s, h, n, command, diskOk);
    if s.nodes[n].role.Leader? {
      if diskOk {
        SubmitStep(s, h, n, Entry(s.nodes[n].currentTerm, Some(command)), s', h');
      } else {
        LoseDisk(s, h, n, s');
      }
    }
  }

  lemma SendKeeps(s: System, h: History, n: NodeId, peer: NodeId)
    requires Inv(s, h) && Enabled(s, Send(n, peer))
    ensures Inv(Step(s, Send(n, peer)), Record(s, Send(n, peer), h))
  {
    SendStep(s, h, n, peer, AppendRequest(peer, Replicate(s.nodes[n], peer)));
  }

  lemma ReplyKeeps(s: System, h: History, n: NodeId, from: NodeId, args: AppendArgs, reply: AppendReply)
    requires Inv(s, h) && Enabled(s, ReceiveAppendReply(n, from, args, reply))
    ensures Inv(Step(s, ReceiveAppendReply(n, from, args, reply)), Record(s, ReceiveAppendReply(n, from, args, reply), h))
  {
    ReplyStep(s, h, n, from, args, reply, OnAppendReply(s.nodes[n], from, args, reply));
  }

  /** The follower refuses exactly when the request is stale, its log does not reach or match the previous index,
      or the disk fails. */
  predicate Refuses(st: NodeState, args: AppendArgs, diskOk: bool) {
    || args.term < st.currentTerm
    || args.prevLogIndex > |st.log|
    || (args.prevLogIndex > 0 && TermAt(st.log, args.prevLogIndex) != args.prevLogTerm)
    || (Missing(st.log, args.prevLogIndex, args.entries) != [] && !diskOk)
  }

  lemma RefusedState(st: NodeState, args: AppendArgs, diskOk: bool)
    requires Ok(st) && Refuses(st, args, diskOk)
    ensures var (st', r) := HandleAppendEntries(st, args, diskOk);
            && r == AppendReply(st.currentTerm, false) && Ballots(st, st')
            && (st'.currentTerm == st.currentTerm ==> st'.votedFor == st.votedFor)
            && (st'.currentTerm > st.currentTerm ==> st'.votedFor == None)
  {
  }

  /** The state and history after delivering a request, in terms of the handler's result. */
  lemma AppendResult(s: System, h: History, n: NodeId, args: AppendArgs, diskOk: bool) returns (s': System, h': History)
    requires AllOk(s) && Enabled(s, ReceiveAppend(n, args, diskOk))
    ensures s' == Step(s, ReceiveAppend(n, args, diskOk)) && h' == Record(s, ReceiveAppend(n, args, diskOk), h)
    ensures var (st', r) := HandleAppendEntries(s.nodes[n], args, diskOk);
            && s' == Replace(s, st', {AppendResponse(n, args, r)})
            && h' == if r.success then Confirm(h, Slot(n, args.term), Covered(args)) else h
  {
    s', h' := Step(s, ReceiveAppend(n, args, diskOk)), Record(s, ReceiveAppend(n, args, diskOk), h);
  }

  lemma RefuseKeeps(s: System, h: History, n: NodeId, args: AppendArgs, diskOk: bool, s': System, h': History)
    requires Inv(s, h) && n in s.nodes && Refuses(s.nodes[n], args, diskOk)
    requires var (st', r) := HandleAppendEntries(s.nodes[n], args, diskOk);
             && s' == Replace(s, st', {AppendResponse(n, args, r)})
             && h' == if r.success then Confirm(h, Slot(n, args.term), Covered(args)) else h
    ensures Inv(s', h')
  {
    RefusedState(s.nodes[n], args, diskOk);
    var (st', r) := HandleAppendEntries(s.nodes[n], args, diskOk);
    RejectStep(s, h, n, args, st', s', AppendResponse(n, args, r));
  }

  lemma AcceptKeeps(s: System, h: History, n: NodeId, args: AppendArgs, diskOk: bool, s': System, h': History)
    requires Inv(s, h) && n in s.nodes && !Refuses(s.nodes[n], args, diskOk) && AppendRequest(n, args) in s.msgs
    requires var (st', r) := HandleAppendEntries(s.nodes[n], args, diskOk);
             && s' == Replace(s, st', {AppendResponse(n, args, r)})
             && h' == if r.success then Confirm(h, Slot(n, args.term), Covered(args)) else h
    ensures Inv(s', h')
  {
    var m := AppendResponse(n, args, AppendReply(s.nodes[n].currentTerm, true));
    var _, _ := AcceptStep(s, h, n, args, m);
    HandlerAccepts(s, h, s.nodes[n], args, diskOk);
  }

  lemma AppendKeeps(s: System, h: History, n: NodeId, args: AppendArgs, diskOk: bool)
    requires Inv(s, h) && Enabled(s, ReceiveAppend(n, args, diskOk))
    ensures Inv(Step(s, ReceiveAppend(n, args, diskOk)), Record(s, ReceiveAppend(n, args, diskOk), h))
  {
    var s', h' := AppendResult(s, h, n, args, diskOk);
    if Refuses(s.nodes[n], args, diskOk) {
      RefuseKeeps(s, h, n, args, diskOk, s', h');
    } else {
      AcceptKeeps(s, h, n, args, diskOk, s', h');
    }
  }

  lemma StepKeeps(s: System, a: Action, h: History)
    requires Inv(s, h)
    ensures Inv(Step(s, a), Record(s, a, h))
  {
    if Enabled(s, a) {
      match a
      case Timeout(n) => TimeoutKeeps(s, h, n);
      case Campaign(n) => CampaignKeeps(s, h, n);
      case ReceiveVoteRequest(n, vote) => VoteKeeps(s, h, n, vote);
      case ReceiveVoteReply(n, from, vote, granted) => CountKeeps(s, h, n, from, vote, granted);
      case Win(n, term, diskOk) => WinKeeps(s, h, n, term, diskOk);
      case Submit(n, command, diskOk) => SubmitKeeps(s, h, n, command, diskOk);
      case Send(n, peer) => SendKeeps(s, h, n, peer);
      case ReceiveAppend(n, append, diskOk) => AppendKeeps(s, h, n, append, diskOk);
      case ReceiveAppendReply(n, from, append, result) => ReplyKeeps(s, h, n, from, append, result);
    }
  }
}
