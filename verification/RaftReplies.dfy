/** A leader sending entries and folding in the replies. */
module RaftReplies {
  import opened Options
  import opened RaftTypes
  import opened RaftSpec
  import opened RaftSystem
  import opened RaftHistory
  import opened RaftFrame
  import opened RaftElection
  import opened RaftCampaign
  import opened RaftLeader

  lemma SendStep(s: System, h: History, n: NodeId, peer: NodeId, m: Message)
    requires Inv(s, h) && n in s.nodes && CanSend(s.nodes[n], peer)
    requires m == AppendRequest(peer, Replicate(s.nodes[n], peer))
    ensures Inv(Replace(s, s.nodes[n], {m}), h)
  {
    assert NodeLogOk(h, s.nodes[n]) && NodeCommitOk(s, h, s.nodes[n]);
    var s' := SendQuiet(s, h, n, peer, m);
    SameVotes(s, s', h, n);
    QuietStep(s, s', h, h, n);
  }

  lemma SendQuiet(s: System, h: History, n: NodeId, peer: NodeId, m: Message) returns (s': System)
    requires AllOk(s) && n in s.nodes && CanSend(s.nodes[n], peer)
    requires NodeLogOk(h, s.nodes[n]) && NodeCommitOk(s, h, s.nodes[n])
    requires m == AppendRequest(peer, Replicate(s.nodes[n], peer))
    ensures s' == Replace(s, s.nodes[n], {m}) && s'.nodes == s.nodes && Quiet(s, s', h, h, n)
    ensures forall x :: x in s'.msgs && x !in s.msgs ==> VoteMessageOk(s', h, x) && AppendMessageOk(s', h, x)
  {
    var st := s.nodes[n];
    SentArgsOk(s, h, st, peer);
    SameHistory(h, n, st.currentTerm);
    s' := QuietFrom(s, st, {m}, h, h);
    assert s'.nodes == s.nodes;
    OtherAppendArgs(s, s', h, h, m.append);
  }

  lemma SameVotes(s: System, s': System, h: History, n: NodeId)
    requires Near(s, s', h, h, n) && s'.nodes == s.nodes && VotesInv(s, h)
    ensures VotesInv(s', h)
  {
    assert forall k :: k in h.ballots ==> (BallotOk(s', h, k) <==> BallotOk(s, h, k));
  }

  /** A request is a slice of the leader's log and announces no more than it covers. */
  lemma SentArgsOk(s: System, h: History, st: NodeState, peer: NodeId)
    requires Ok(st) && CanSend(st, peer) && NodeLogOk(h, st) && NodeCommitOk(s, h, st)
    ensures AppendArgsOk(s, h, Replicate(st, peer))
  {
  }

  // ---- replies ----

  /** `st1` is the leader `st` with another, still true, view of its peers. */
  ghost predicate View(h: History, st: NodeState, st1: NodeState) {
    && st.role.Leader? && Ok(st1)
    && st1 == st.(matchIndex := st1.matchIndex, nextIndex := st1.nextIndex)
    && (forall p :: p in st1.peers ==> ProgressOk(h, st1, p))
  }

  /** A success counted by a leader answers a request of its own term, so the peer did confirm that much. */
  lemma SuccessIsAck(s: System, h: History, st: NodeState, from: NodeId, args: AppendArgs, reply: AppendReply)
    requires st.role.Leader? && NodeLogOk(h, st) && AppendMessageOk(s, h, AppendResponse(from, args, reply))
    requires reply.success && args.term <= st.currentTerm == reply.term
    ensures args.prevLogIndex + |args.entries| <= |st.log|
    ensures Slot(from, st.currentTerm) in h.acks
            && h.acks[Slot(from, st.currentTerm)] >= args.prevLogIndex + |args.entries|
  {
  }

  lemma TrackIsView(h: History, st: NodeState, from: NodeId, m: nat)
    requires Ok(st) && st.role.Leader? && (forall p :: p in st.peers ==> ProgressOk(h, st, p)) && from in st.peers
    requires m <= |st.log| && Slot(from, st.currentTerm) in h.acks && h.acks[Slot(from, st.currentTerm)] >= m
    ensures View(h, st, Track(st, from, m))
  {
    if m > st.matchIndex[from] { TrackedView(h, st, from, m, m + 1, Track(st, from, m)); }
  }

  lemma ReplyRejected(h: History, st: NodeState, from: NodeId, args: AppendArgs, reply: AppendReply)
    requires Ok(st) && st.role.Leader? && (forall p :: p in st.peers ==> ProgressOk(h, st, p))
    requires from in st.peers && !reply.success && reply.term == st.currentTerm
    ensures View(h, st, OnAppendReply(st, from, args, reply))
  {
    if st.nextIndex[from] > 1 {
      assert ProgressOk(h, st, from);
      assert st.matchIndex[from := st.matchIndex[from]] == st.matchIndex;
      TrackedView(h, st, from, st.matchIndex[from], st.nextIndex[from] - 1, OnAppendReply(st, from, args, reply));
    }
  }

  lemma TrackedView(h: History, st: NodeState, from: NodeId, m: nat, next: nat, st1: NodeState)
    requires Ok(st) && st.role.Leader? && from in st.peers && (forall p :: p in st.peers ==> ProgressOk(h, st, p))
    requires 1 <= next <= |st.log| + 1
    requires m > 0 ==> Slot(from, st.currentTerm) in h.acks && h.acks[Slot(from, st.currentTerm)] >= m
    requires st1.matchIndex == st.matchIndex[from := m] && st1.nextIndex == st.nextIndex[from := next]
    requires st1 == st.(matchIndex := st1.matchIndex, nextIndex := st1.nextIndex)
    ensures View(h, st, st1)
  {
    assert Ok(st1);
    forall p | p in st1.peers ensures ProgressOk(h, st1, p) { assert ProgressOk(h, st, p); }
  }

  lemma LeaderView(s: System, h: History, n: NodeId)
    requires AllOk(s) && n in s.nodes && s.nodes[n].role.Leader? && ProgressInv(s, h)
    ensures View(h, s.nodes[n], s.nodes[n])
  {
    forall p | p in s.nodes[n].peers ensures ProgressOk(h, s.nodes[n], p) { }
  }

  /** Whatever a leader in office does with a reply of its own term, its view of the peers stays true. */
  lemma ReplyView(s: System, h: History, st: NodeState, from: NodeId, args: AppendArgs, reply: AppendReply)
    returns (st1: NodeState)
    requires Ok(st) && View(h, st, st) && NodeLogOk(h, st) && from in st.peers && reply.term == st.currentTerm
    requires AppendMessageOk(s, h, AppendResponse(from, args, reply)) && (reply.success ==> args.term <= st.currentTerm)
    ensures View(h, st, st1)
    ensures OnAppendReply(st, from, args, reply) == if reply.success then UpdateCommitIndex(st1) else st1
  {
    if reply.success {
      SuccessIsAck(s, h, st, from, args, reply);
      TrackIsView(h, st, from, args.prevLogIndex + |args.entries|);
      st1 := Track(st, from, args.prevLogIndex + |args.entries|);
    } else {
      ReplyRejected(h, st, from, args, reply);
      st1 := OnAppendReply(st, from, args, reply);
    }
  }

  lemma ReplyStep(s: System, h: History, n: NodeId, from: NodeId, args: AppendArgs, reply: AppendReply, st': NodeState)
    requires Inv(s, h) && n in s.nodes && from in s.nodes[n].peers && args.leaderId == n
    requires AppendResponse(from, args, reply) in s.msgs && st' == OnAppendReply(s.nodes[n], from, args, reply)
    ensures Inv(Replace(s, st', {}), h)
  {
    var st := s.nodes[n];
    if reply.term > st.currentTerm {
      StepDownStep(s, h, n, reply.term);
    } else if !st.role.Leader? || reply.term < st.currentTerm {
      Unmoved(s, n);
    } else {
      assert AppendMessageOk(s, h, AppendResponse(from, args, reply)) && NodeLogOk(h, st);
      assert reply.success ==> Elected(s, h, args.term);
      LeaderView(s, h, n);
      var st1 := ReplyView(s, h, st, from, args, reply);
      ViewStep(s, h, n, st1, st');
    }
  }

  lemma Unmoved(s: System, n: NodeId)
    requires AllOk(s) && n in s.nodes
    ensures Replace(s, s.nodes[n], {}) == s
  {
    assert s.nodes[n := s.nodes[n]] == s.nodes && s.msgs + {} == s.msgs;
  }

  lemma StepDownStep(s: System, h: History, n: NodeId, term: nat)
    requires Inv(s, h) && n in s.nodes && term > s.nodes[n].currentTerm
    ensures Inv(Replace(s, StepDown(s.nodes[n], term), {}), h)
  {
    var st' := StepDown(s.nodes[n], term);
    FreshTerm(s, h, n, term);
    SameHistory(h, n, term);
    var s' := QuietFrom(s, st', {}, h, h);
    VoteBallots(s, h, n, s', h);
    QuietStep(s, s', h, h, n);
  }

  /** A step of a leader that only changes its view of its peers and perhaps its commit index. */
  lemma ViewStep(s: System, h: History, n: NodeId, st1: NodeState, st': NodeState)
    requires Inv(s, h) && n in s.nodes && View(h, s.nodes[n], st1)
    requires st' == st1 || st' == UpdateCommitIndex(st1)
    ensures Inv(Replace(s, st', {}), h)
  {
    var s' := ViewNear(s, h, n, st1, st');
    ViewCommits(s, h, n, st1, st', s');
    ViewVotes(s, h, n, s');
    SameLog(s, h, h, n, st');
    QuietKeeps(s, s', h, h, n);
  }

  lemma ViewNear(s: System, h: History, n: NodeId, st1: NodeState, st': NodeState) returns (s': System)
    requires AllOk(s) && n in s.nodes && View(h, s.nodes[n], st1)
    requires st' == st1 || st' == UpdateCommitIndex(st1)
    ensures s' == Replace(s, st', {}) && s'.nodes[n] == st' && s'.msgs == s.msgs && Quiet(s, s', h, h, n)
    ensures st'.log == s.nodes[n].log && st'.currentTerm == s.nodes[n].currentTerm && st'.role == s.nodes[n].role
    ensures st'.votedFor == s.nodes[n].votedFor && st'.elections == s.nodes[n].elections
    ensures st'.campaigning == s.nodes[n].campaigning
  {
    SameHistory(h, n, st'.currentTerm);
    s' := ReplaceNear(s, st', {}, h, h);
  }

  lemma ViewVotes(s: System, h: History, n: NodeId, s': System)
    requires Near(s, s', h, h, n) && VotesInv(s, h)
    requires var st, st' := s.nodes[n], s'.nodes[n];
             && st'.currentTerm == st.currentTerm && st'.role == st.role && st'.votedFor == st.votedFor
             && st'.elections == st.elections && st'.campaigning == st.campaigning
    ensures VotesInv(s', h)
  {
    assert NodeVoteOk(h, s.nodes[n]);
    SameCounts(s, h, h, n, s'.nodes[n]);
    OtherBallots(s, s', h, h, n);
  }

  lemma ViewCommits(s: System, h: History, n: NodeId, st1: NodeState, st': NodeState, s': System)
    requires AllOk(s) && LogsInv(s, h) && ReignsInv(s, h) && CommitInv(s, h) && n in s.nodes && View(h, s.nodes[n], st1)
    requires st' == st1 || st' == UpdateCommitIndex(st1)
    requires s'.nodes.Keys == s.nodes.Keys
    ensures NodeCommitOk(s', h, st') && forall p :: p in st'.peers ==> ProgressOk(h, st', p)
  {
    assert NodeLogOk(h, s.nodes[n]) && Elected(s, h, st1.currentTerm) && NodeCommitOk(s, h, s.nodes[n]);
    assert NodeCommitOk(s, h, st1) && LeaderOk(s, h, st1);
    CommitAdvance(s, h, st1);
    SameHistory(h, n, 0);
    CommittedGrows(s, s', h, h, st'.log[..st'.commitIndex], st'.currentTerm, st'.currentTerm);
    forall p | p in st'.peers ensures ProgressOk(h, st', p) { assert ProgressOk(h, st1, p); }
  }
}
