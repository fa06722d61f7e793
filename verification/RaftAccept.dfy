/** The invariant after a follower has accepted entries. */
module RaftAccept {
  import opened Options
  import opened RaftTypes
  import opened RaftSpec
  import opened RaftSystem
  import opened RaftHistory
  import opened RaftFrame
  import opened RaftElection
  import opened RaftCampaign
  import opened RaftCompleteness
  import opened RaftFollower

  /** A follower `st` accepts a request of the leader of its term. */
  ghost predicate Accepts(s: System, s': System, h: History, h': History, n: NodeId, args: AppendArgs) {
    && Near(s, s', h, h', n) && Acceptable(s, h, s.nodes[n], args) && n != args.leaderId
    && s.nodes[n].commitIndex <= |Merged(s.nodes[n].log, args.prevLogIndex, args.entries)|
    && s'.nodes[n] == Accepted(s.nodes[n], args)
    && h' == Confirm(h, Slot(n, args.term), Covered(args))
  }

  lemma IsAcceptable(s: System, h: History, n: NodeId, args: AppendArgs)
    requires AllOk(s) && LogsInv(s, h) && ReignsInv(s, h) && AcksInv(s, h) && CommitInv(s, h) && n in s.nodes
    requires AppendArgsOk(s, h, args) && s.nodes[n].currentTerm <= args.term
    requires args.prevLogIndex <= |s.nodes[n].log|
    requires args.prevLogIndex > 0 ==> TermAt(s.nodes[n].log, args.prevLogIndex) == args.prevLogTerm
    ensures Acceptable(s, h, s.nodes[n], args)
  {
    var st := s.nodes[n];
    assert NodeLogOk(h, st) && NodeCommitOk(s, h, st) && ReignOk(h, args.term);
    CommittedInLeader(s, h, st.log[..st.commitIndex], st.currentTerm, args.term);
  }

  lemma AcceptNear(s: System, h: History, n: NodeId, args: AppendArgs, m: Message, h': History) returns (s': System)
    requires h' == Confirm(h, Slot(n, args.term), Covered(args)) && HistoryMoves(h, h', n, args.term)
    requires AllOk(s) && n in s.nodes && Acceptable(s, h, s.nodes[n], args) && NodeCommitOk(s, h, s.nodes[n])
    requires n != args.leaderId
    ensures s.nodes[n].commitIndex <= |Merged(s.nodes[n].log, args.prevLogIndex, args.entries)|
    ensures Follows(s.nodes[n], Accepted(s.nodes[n], args)) && s' == Replace(s, Accepted(s.nodes[n], args), {m})
    ensures Accepts(s, s', h, h', n, args) && s'.msgs == s.msgs + {m}
    ensures NodeCommitOk(s', h', s'.nodes[n])
  {
    var st' := AcceptedFields(s, h, s.nodes[n], args);
    s' := ConfirmNear(s, h, n, st', h', m);
  }

  lemma AcceptedFields(s: System, h: History, st: NodeState, args: AppendArgs) returns (st': NodeState)
    requires Acceptable(s, h, st, args) && NodeCommitOk(s, h, st)
    ensures st.commitIndex <= |Merged(st.log, args.prevLogIndex, args.entries)|
    ensures st' == Accepted(st, args) && Follows(st, st') && NodeMoves(st, st') && st'.currentTerm == args.term
    ensures NodeCommitOk(s, h, st')
  {
    MergeKeepsCommitted(s, h, st, args);
    AcceptCommit(s, h, st, args);
    st' := Accepted(st, args);
  }

  lemma ConfirmNear(s: System, h: History, n: NodeId, st': NodeState, h': History, m: Message) returns (s': System)
    requires HistoryMoves(h, h', n, st'.currentTerm)
    requires AllOk(s) && n in s.nodes && Follows(s.nodes[n], st') && NodeMoves(s.nodes[n], st') && NodeCommitOk(s, h, st')
    ensures s' == Replace(s, st', {m})
    ensures Near(s, s', h, h', n) && s'.nodes[n] == st' && s'.msgs == s.msgs + {m} && NodeCommitOk(s', h', st')
  {
    s' := ReplaceNear(s, st', {m}, h, h');
    SameNodeCommits(s, s', h, h', st');
  }

  lemma SameNodeCommits(s: System, s': System, h: History, h': History, st: NodeState)
    requires Ok(st) && NodeCommitOk(s, h, st) && Grows(h, h') && s'.nodes.Keys == s.nodes.Keys
    ensures NodeCommitOk(s', h', st)
  {
    CommittedGrows(s, s', h, h', st.log[..st.commitIndex], st.currentTerm, st.currentTerm);
  }

  lemma AcceptReigns(s: System, s': System, h: History, h': History, n: NodeId, args: AppendArgs)
    requires Accepts(s, s', h, h', n, args) && ReignsInv(s, h)
    ensures ReignsInv(s', h')
  {
    assert ReignOk(h, args.term) && Elected(s, h, args.term);
    SoundGrows(h, h', h.reigns[args.term].log);
    OtherReigns(s, s', h, h', n);
  }

  lemma AcceptVotes(s: System, s': System, h: History, h': History, n: NodeId, args: AppendArgs)
    requires Accepts(s, s', h, h', n, args) && VotesInv(s, h)
    ensures VotesInv(s', h')
  {
    var st, st' := s.nodes[n], s'.nodes[n];
    assert NodeVoteOk(h, st);
    if args.term > st.currentTerm { FreshTerm(s, h, n, args.term); }
    SameCounts(s, h, h', n, st');
    OtherBallots(s, s', h, h', n);
  }

  lemma AcceptAcks(s: System, s': System, h: History, h': History, n: NodeId, args: AppendArgs)
    requires Accepts(s, s', h, h', n, args) && ReignsInv(s, h) && VotesInv(s, h) && AcksInv(s, h)
    ensures AcksInv(s', h')
  {
    AcceptAcksOk(s, s', h, h', n, args);
    AcceptNodesKeep(s, s', h, h', n, args);
    OtherBallotsKeep(s, s', h, h', n);
    OtherLeadersKeep(s, s', h, h', n);
  }

  lemma AcceptAcksOk(s: System, s': System, h: History, h': History, n: NodeId, args: AppendArgs)
    requires Accepts(s, s', h, h', n, args) && AcksOk(s, h)
    ensures AcksOk(s', h')
  {
    var k := Slot(n, args.term);
    assert k in h.acks ==> AckOk(s, h, k);
    OtherAcksOk(s, s', h, h', n);
  }

  lemma AcceptNodesKeep(s: System, s': System, h: History, h': History, n: NodeId, args: AppendArgs)
    requires Accepts(s, s', h, h', n, args) && ReignsInv(s, h) && AcksOk(s, h) && NodesKeep(s, h) && AcksOk(s', h')
    ensures NodesKeep(s', h')
  {
    forall t | Slot(n, t) in h'.acks ensures AckOk(s', h', Slot(n, t)) && NodeKeeps(h', s'.nodes[n], t) {
      assert AckOk(s', h', Slot(n, t));
      assert Slot(n, t) in h.acks ==> AckOk(s, h, Slot(n, t)) && NodeKeeps(h, s.nodes[n], Slot(n, t).term);
      AcceptNodeKeeps(s, h, h', s.nodes[n], s'.nodes[n], args, t);
    }
    OtherNodesKeep(s, s', h, h', n);
  }

  lemma AcceptMessages(s: System, s': System, h: History, h': History, n: NodeId, args: AppendArgs, m: Message)
    requires Accepts(s, s', h, h', n, args) && VoteMessagesInv(s, h) && AppendMessagesInv(s, h)
    requires s'.msgs == s.msgs + {m} && m == AppendResponse(n, args, AppendReply(s.nodes[n].currentTerm, true))
    ensures VoteMessagesInv(s', h') && AppendMessagesInv(s', h')
  {
    OtherVoteMessages(s, s', h, h', n);
    AckIsOk(s, s', h, h', n, args, m);
    OtherAppendMessages(s, s', h, h', n);
  }

  lemma AckIsOk(s: System, s': System, h: History, h': History, n: NodeId, args: AppendArgs, m: Message)
    requires Accepts(s, s', h, h', n, args) && m == AppendResponse(n, args, AppendReply(s.nodes[n].currentTerm, true))
    ensures AppendMessageOk(s', h', m)
  {
    OtherAppendArgs(s, s', h, h', args);
  }

  lemma AcceptNodes(s: System, s': System, h: History, h': History, n: NodeId, args: AppendArgs)
    requires Accepts(s, s', h, h', n, args) && LogsInv(s, h) && ProgressInv(s, h) && CommitInv(s, h)
    requires NodeCommitOk(s', h', s'.nodes[n])
    ensures LogsInv(s', h') && ProgressInv(s', h') && CommitInv(s', h')
  {
    AcceptLog(s, h, s.nodes[n], args, h');
    OtherLogs(s, s', h, h', n);
    OtherProgress(s, s', h, h', n);
    OtherCommits(s, s', h, h', n);
  }

  lemma AcceptStep(s: System, h: History, n: NodeId, args: AppendArgs, m: Message)
    returns (s': System, h': History)
    requires Inv(s, h) && n in s.nodes && AppendRequest(n, args) in s.msgs && s.nodes[n].currentTerm <= args.term
    requires args.prevLogIndex <= |s.nodes[n].log|
    requires args.prevLogIndex > 0 ==> TermAt(s.nodes[n].log, args.prevLogIndex) == args.prevLogTerm
    requires m == AppendResponse(n, args, AppendReply(s.nodes[n].currentTerm, true))
    ensures Acceptable(s, h, s.nodes[n], args)
    ensures s.nodes[n].commitIndex <= |Merged(s.nodes[n].log, args.prevLogIndex, args.entries)|
    ensures Follows(s.nodes[n], Accepted(s.nodes[n], args)) && s' == Replace(s, Accepted(s.nodes[n], args), {m})
    ensures h' == Confirm(h, Slot(n, args.term), Covered(args))
    ensures Inv(s', h')
  {
    assert AppendMessageOk(s, h, AppendRequest(n, args)) && NodeCommitOk(s, h, s.nodes[n]);
    IsAcceptable(s, h, n, args);
    h' := Confirm(h, Slot(n, args.term), Covered(args));
    ConfirmMoves(h, n, args.term, Covered(args), h');
    s' := AcceptNear(s, h, n, args, m, h');
    AcceptReigns(s, s', h, h', n, args);
    AcceptVotes(s, s', h, h', n, args);
    AcceptAcks(s, s', h, h', n, args);
    AcceptMessages(s, s', h, h', n, args, m);
    AcceptNodes(s, s', h, h', n, args);
  }
}
