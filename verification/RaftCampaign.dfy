/** The steps of an election that do not make a leader: timing out, campaigning, voting and counting votes. */
module RaftCampaign {
  import opened Options
  import opened RaftTypes
  import opened RaftSpec
  import opened RaftSystem
  import opened RaftHistory
  import opened RaftFrame
  import opened RaftElection

  lemma FreshTerm(s: System, h: History, n: NodeId, t: nat)
    requires VotesInv(s, h) && n in s.nodes && t > s.nodes[n].currentTerm
    ensures Slot(n, t) !in h.ballots
  {
    assert Slot(n, t) in h.ballots ==> BallotOk(s, h, Slot(n, t));
  }

  lemma SameCounts(s: System, h: History, h': History, n: NodeId, st': NodeState)
    requires VotesInv(s, h) && n in s.nodes && Grows(h, h')
    requires st'.id == s.nodes[n].id && st'.peers == s.nodes[n].peers
    requires st'.elections == s.nodes[n].elections && st'.currentTerm >= s.nodes[n].currentTerm
    requires st'.campaigning ==> s.nodes[n].campaigning || st'.currentTerm > s.nodes[n].currentTerm
    ensures forall t :: t in st'.elections ==> CountOk(h', st', t)
  {
    forall t | t in st'.elections ensures CountOk(h', st', t) { assert CountOk(h, s.nodes[n], t); }
  }

  lemma TimeoutStep(s: System, h: History, n: NodeId, st': NodeState, s': System, h': History)
    requires Inv(s, h) && n in s.nodes && !s.nodes[n].role.Leader?
    requires st' == BecomeCandidate(s.nodes[n]) && s' == Replace(s, st', {})
    requires h' == h.(ballots := h.ballots[Slot(n, st'.currentTerm) := Ballot(n, st'.log)])
    ensures Inv(s', h')
  {
    TimeoutQuiet(s, h, n, st', s', h');
    TimeoutLog(s, h, n, st', h');
    TimeoutVotes(s, h, n, st', s', h');
    QuietCommits(s, s', h, h', n);
    QuietKeeps(s, s', h, h', n);
  }

  lemma TimeoutLog(s: System, h: History, n: NodeId, st': NodeState, h': History)
    requires AllOk(s) && ReignsInv(s, h) && LogsInv(s, h) && n in s.nodes && !s.nodes[n].role.Leader?
    requires st' == BecomeCandidate(s.nodes[n]) && Grows(h, h') && h'.reigns == h.reigns
    ensures NodeLogOk(h', st')
  {
    var st := s.nodes[n];
    assert NodeLogOk(h, st);
    SoundGrows(h, h', st.log);
    assert st'.currentTerm in h.reigns ==> Elected(s, h, st'.currentTerm);
  }

  lemma TimeoutQuiet(s: System, h: History, n: NodeId, st': NodeState, s': System, h': History)
    requires AllOk(s) && VotesInv(s, h) && n in s.nodes && !s.nodes[n].role.Leader?
    requires st' == BecomeCandidate(s.nodes[n]) && s' == Replace(s, st', {})
    requires h' == h.(ballots := h.ballots[Slot(n, st'.currentTerm) := Ballot(n, st'.log)])
    ensures Quiet(s, s', h, h', n) && s'.nodes[n] == st' && SameLogState(s.nodes[n], st')
  {
    FreshTerm(s, h, n, st'.currentTerm);
    var _ := NewBallot(h, Slot(n, st'.currentTerm), Ballot(n, st'.log));
    var _ := QuietFrom(s, st', {}, h, h');
  }

  lemma TimeoutVotes(s: System, h: History, n: NodeId, st': NodeState, s': System, h': History)
    requires Quiet(s, s', h, h', n) && NodeLogOk(h', s'.nodes[n]) && VotesInv(s, h)
    requires st' == s'.nodes[n] == BecomeCandidate(s.nodes[n]) && st'.role.Candidate?
    requires st'.currentTerm == s.nodes[n].currentTerm + 1
    requires h' == h.(ballots := h.ballots[Slot(n, st'.currentTerm) := Ballot(n, st'.log)])
    ensures VotesInv(s', h')
  {
    SameCounts(s, h, h', n, st');
    assert BallotOk(s', h', Slot(n, st'.currentTerm));
    OtherBallots(s, s', h, h', n);
  }

  // ---- startElection ----

  lemma CampaignStep(s: System, h: History, n: NodeId, st': NodeState, s': System)
    requires Inv(s, h) && n in s.nodes && s.nodes[n].campaigning
    requires st' == StartElection(s.nodes[n]).0
    requires s' == Replace(s, st', set p | p in st'.peers :: VoteRequest(p, StartElection(s.nodes[n]).1))
    ensures Inv(s', h)
  {
    CampaignQuiet(s, h, n, st', s');
    CampaignVotes(s, h, n, st', s');
    QuietStep(s, s', h, h, n);
  }

  lemma CampaignQuiet(s: System, h: History, n: NodeId, st': NodeState, s': System)
    requires AllOk(s) && n in s.nodes && st' == StartElection(s.nodes[n]).0
    requires s' == Replace(s, st', set p | p in st'.peers :: VoteRequest(p, StartElection(s.nodes[n]).1))
    ensures Quiet(s, s', h, h, n) && s'.nodes[n] == st' && SameLogState(s.nodes[n], st')
    ensures forall m :: m in s'.msgs && m !in s.msgs ==> VoteMessageOk(s', h, m) && AppendMessageOk(s', h, m)
  {
    SameHistory(h, n, st'.currentTerm);
    var _ := QuietFrom(s, st', set p | p in st'.peers :: VoteRequest(p, StartElection(s.nodes[n]).1), h, h);
  }

  lemma CampaignVotes(s: System, h: History, n: NodeId, st': NodeState, s': System)
    requires Near(s, s', h, h, n) && VotesInv(s, h) && s.nodes[n].campaigning
    requires st' == s'.nodes[n] == StartElection(s.nodes[n]).0
    ensures VotesInv(s', h)
  {
    var st := s.nodes[n];
    assert NodeVoteOk(h, st);
    forall t | t in st'.elections ensures CountOk(h, st', t) {
      assert t != st.currentTerm ==> CountOk(h, st, t);
    }
    OtherBallots(s, s', h, h, n);
  }

  // ---- HandleRequestVote ----

  /** The history after a vote: the first grant in a term is the ballot. */
  function VoteHistory(st: NodeState, vote: VoteArgs, h: History): History
    requires Ok(st)
  {
    if HandleRequestVote(st, vote).1.granted && Slot(st.id, vote.term) !in h.ballots
    then h.(ballots := h.ballots[Slot(st.id, vote.term) := Ballot(vote.candidate, st.log)])
    else h
  }

  /** A voter moves to the request's term if that is newer; only term, vote and role change. */
  lemma VoteMoves(st: NodeState, vote: VoteArgs)
    requires Ok(st)
    ensures var (st', r) := HandleRequestVote(st, vote);
            && Ballots(st, st')
            && (st'.currentTerm > st.currentTerm ==> st'.currentTerm == vote.term)
            && (r.granted ==> st'.currentTerm == vote.term && st'.votedFor == Some(vote.candidate)
                              && (vote.term == st.currentTerm && st.votedFor.Some? ==> st.votedFor == st'.votedFor))
            && (!r.granted ==> st'.votedFor == if st'.currentTerm > st.currentTerm then None else st.votedFor)
  {
  }

  /** Its vote is its ballot of that term. */
  lemma VoteNode(s: System, h: History, n: NodeId, vote: VoteArgs, st': NodeState, h': History)
    requires AllOk(s) && VotesInv(s, h) && n in s.nodes
    requires st' == HandleRequestVote(s.nodes[n], vote).0 && h' == VoteHistory(s.nodes[n], vote, h)
    ensures Ballots(s.nodes[n], st')
    ensures NodeVoteOk(h', st') && HistoryMoves(h, h', n, st'.currentTerm)
    ensures h'.reigns == h.reigns && h'.acks == h.acks
    ensures HandleRequestVote(s.nodes[n], vote).1.granted ==>
              Slot(n, vote.term) in h'.ballots && h'.ballots[Slot(n, vote.term)].candidate == vote.candidate
              && st'.currentTerm == vote.term
    ensures h' == h || h'.ballots[Slot(n, st'.currentTerm)].log == s.nodes[n].log
  {
    assert NodeVoteOk(h, s.nodes[n]);
    VoteMoves(s.nodes[n], vote);
    if st'.currentTerm > s.nodes[n].currentTerm { FreshTerm(s, h, n, vote.term); }
    if h' != h {
      var _ := NewBallot(h, Slot(n, vote.term), Ballot(vote.candidate, s.nodes[n].log));
    } else {
      SameHistory(h, n, st'.currentTerm);
    }
  }

  lemma VoteStep(s: System, h: History, n: NodeId, vote: VoteArgs, st': NodeState, sent: Message, h': History)
    requires Inv(s, h) && n in s.nodes && VoteRequest(n, vote) in s.msgs
    requires st' == HandleRequestVote(s.nodes[n], vote).0 && h' == VoteHistory(s.nodes[n], vote, h)
    requires sent == VoteResponse(n, vote, HandleRequestVote(s.nodes[n], vote).1)
    ensures Inv(Replace(s, st', {sent}), h')
  {
    assert VoteMessageOk(s, h, VoteRequest(n, vote));
    var s' := VoteSystem(s, h, n, vote, st', sent, h');
    QuietStep(s, s', h, h', n);
  }

  lemma VoteSystem(s: System, h: History, n: NodeId, vote: VoteArgs, st': NodeState, sent: Message, h': History)
    returns (s': System)
    requires AllOk(s) && LogsInv(s, h) && VotesInv(s, h) && n in s.nodes && VoteMessageOk(s, h, VoteRequest(n, vote))
    requires st' == HandleRequestVote(s.nodes[n], vote).0 && h' == VoteHistory(s.nodes[n], vote, h)
    requires sent == VoteResponse(n, vote, HandleRequestVote(s.nodes[n], vote).1)
    ensures s' == Replace(s, st', {sent}) && Quiet(s, s', h, h', n) && VotesInv(s', h')
    ensures Ballots(s.nodes[n], s'.nodes[n])
    ensures forall m :: m in s'.msgs && m !in s.msgs ==> VoteMessageOk(s', h', m) && AppendMessageOk(s', h', m)
    ensures var k := Slot(n, s'.nodes[n].currentTerm);
            k in h'.ballots && k !in h.ballots ==> h'.ballots[k].log == s'.nodes[n].log
  {
    s' := VoteQuiet(s, h, n, vote, st', sent, h');
    if Slot(n, st'.currentTerm) in h'.ballots && Slot(n, st'.currentTerm) !in h.ballots {
      CastBallot(s, h, n, vote, st', s', h');
    }
    VoteBallots(s, h, n, s', h');
  }

  lemma VoteQuiet(s: System, h: History, n: NodeId, vote: VoteArgs, st': NodeState, sent: Message, h': History)
    returns (s': System)
    requires AllOk(s) && VotesInv(s, h) && n in s.nodes
    requires st' == HandleRequestVote(s.nodes[n], vote).0 && h' == VoteHistory(s.nodes[n], vote, h)
    requires sent == VoteResponse(n, vote, HandleRequestVote(s.nodes[n], vote).1)
    ensures s' == Replace(s, st', {sent}) && s'.nodes[n] == st' && Quiet(s, s', h, h', n)
    ensures Ballots(s.nodes[n], st') && NodeVoteOk(h', st')
    ensures forall m :: m in s'.msgs && m !in s.msgs ==> VoteMessageOk(s', h', m) && AppendMessageOk(s', h', m)
    ensures var k := Slot(n, st'.currentTerm); k in h'.ballots && k !in h.ballots ==> h'.ballots[k].log == s.nodes[n].log
  {
    VoteNode(s, h, n, vote, st', h');
    s' := QuietFrom(s, st', {sent}, h, h');
  }

  lemma VoteBallots(s: System, h: History, n: NodeId, s': System, h': History)
    requires Near(s, s', h, h', n) && VotesInv(s, h) && Ballots(s.nodes[n], s'.nodes[n]) && NodeVoteOk(h', s'.nodes[n])
    requires Slot(n, s'.nodes[n].currentTerm) in h'.ballots && Slot(n, s'.nodes[n].currentTerm) !in h.ballots ==>
               BallotOk(s', h', Slot(n, s'.nodes[n].currentTerm))
    ensures VotesInv(s', h')
  {
    SameCounts(s, h, h', n, s'.nodes[n]);
    OtherBallots(s, s', h, h', n);
  }

  /** The ballot cast is for a candidate whose log, while it is still a candidate, is at least as up to date. */
  lemma CastBallot(s: System, h: History, n: NodeId, vote: VoteArgs, st': NodeState, s': System, h': History)
    requires Quiet(s, s', h, h', n) && LogsInv(s, h)
    requires VoteMessageOk(s, h, VoteRequest(n, vote))
    requires st' == s'.nodes[n] == HandleRequestVote(s.nodes[n], vote).0 && h' == VoteHistory(s.nodes[n], vote, h)
    requires Slot(n, st'.currentTerm) in h'.ballots && Slot(n, st'.currentTerm) !in h.ballots
    ensures BallotOk(s', h', Slot(n, st'.currentTerm))
  {
    assert NodeLogOk(h, s.nodes[n]);
    SoundGrows(h, h', s.nodes[n].log);
    assert UpToDate(vote.lastLogTerm, vote.lastLogIndex, s.nodes[n].log);
  }

  // ---- counting a vote ----

  lemma CountStep(s: System, h: History, n: NodeId, from: NodeId, vote: VoteArgs, reply: VoteReply,
                  st': NodeState, s': System)
    requires Inv(s, h) && n in s.nodes && vote.candidate == n && VoteResponse(from, vote, reply) in s.msgs
    requires st' == OnVoteReply(s.nodes[n], from, vote, reply) && s' == Replace(s, st', {})
    ensures Inv(s', h)
  {
    assert VoteMessageOk(s, h, VoteResponse(from, vote, reply));
    CountQuiet(s, h, n, from, vote, reply, st', s');
    CountVotes(s, h, n, from, vote, reply, st', s');
    QuietStep(s, s', h, h, n);
  }

  lemma CountQuiet(s: System, h: History, n: NodeId, from: NodeId, vote: VoteArgs, reply: VoteReply,
                   st': NodeState, s': System)
    requires AllOk(s) && VotesInv(s, h) && n in s.nodes
    requires st' == OnVoteReply(s.nodes[n], from, vote, reply) && s' == Replace(s, st', {})
    ensures Quiet(s, s', h, h, n) && s'.nodes[n] == st' && NodeVoteOk(h, st') && SameLogState(s.nodes[n], st')
  {
    assert NodeVoteOk(h, s.nodes[n]);
    if st'.currentTerm > s.nodes[n].currentTerm { FreshTerm(s, h, n, st'.currentTerm); }
    SameHistory(h, n, st'.currentTerm);
    var _ := QuietFrom(s, st', {}, h, h);
  }

  lemma CountVotes(s: System, h: History, n: NodeId, from: NodeId, vote: VoteArgs, reply: VoteReply,
                   st': NodeState, s': System)
    requires Near(s, s', h, h, n) && VotesInv(s, h) && NodeVoteOk(h, st')
    requires vote.candidate == n && VoteMessageOk(s, h, VoteResponse(from, vote, reply))
    requires st' == s'.nodes[n] == OnVoteReply(s.nodes[n], from, vote, reply)
    ensures VotesInv(s', h)
  {
    CountedOk(s, h, n, from, vote, reply, st');
    OtherBallots(s, s', h, h, n);
  }

  lemma CountedOk(s: System, h: History, n: NodeId, from: NodeId, vote: VoteArgs, reply: VoteReply, st': NodeState)
    requires AllOk(s) && VotesInv(s, h) && n in s.nodes && st' == OnVoteReply(s.nodes[n], from, vote, reply)
    requires vote.candidate == n && VoteMessageOk(s, h, VoteResponse(from, vote, reply))
    ensures forall t :: t in st'.elections ==> CountOk(h, st', t)
  {
    forall t | t in st'.elections ensures CountOk(h, st', t) { assert CountOk(h, s.nodes[n], t); }
  }
}
