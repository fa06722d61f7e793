/** Elections: at most one node wins a term, and the steps that campaign, vote and count keep the invariant. */
module RaftElection {
  import opened Options
  import opened RaftTypes
  import opened RaftSpec
  import opened RaftSystem
  import opened RaftHistory
  import opened RaftFrame

  /** A candidate with a majority in a term is the first to win that term. */
  lemma TermIsFree(s: System, h: History, n: NodeId)
    requires AllOk(s) && ReignsInv(s, h) && LogsInv(s, h) && VotesInv(s, h)
    requires n in s.nodes && s.nodes[n].role.Candidate?
    requires var st := s.nodes[n]; st.currentTerm in st.elections && |st.elections[st.currentTerm]| >= Majority(st)
    ensures s.nodes[n].currentTerm !in h.reigns
    ensures Quorum(s.nodes.Keys, s.nodes[n].elections[s.nodes[n].currentTerm])
    ensures forall e :: e in s.nodes[n].elections[s.nodes[n].currentTerm] ==>
              Slot(e, s.nodes[n].currentTerm) in h.ballots && h.ballots[Slot(e, s.nodes[n].currentTerm)].candidate == n
  {
    var st := s.nodes[n];
    assert CountOk(h, st, st.currentTerm) && NodeVoteOk(h, st) && NodeLogOk(h, st);
    CountIsQuorum(s.nodes.Keys, h, st);
    if st.currentTerm in h.reigns {
      assert Elected(s, h, st.currentTerm);
      var e := QuorumsMeet(s.nodes.Keys, st.elections[st.currentTerm], h.reigns[st.currentTerm].electors);
    }
  }

  lemma CountIsQuorum(servers: set<NodeId>, h: History, st: NodeState)
    requires st.role.Candidate? && st.id in servers && st.peers == servers - {st.id}
    requires st.currentTerm in st.elections && |st.elections[st.currentTerm]| >= Majority(st)
    requires CountOk(h, st, st.currentTerm) && NodeVoteOk(h, st)
    ensures Quorum(servers, st.elections[st.currentTerm])
    ensures forall e :: e in st.elections[st.currentTerm] ==>
              Slot(e, st.currentTerm) in h.ballots && h.ballots[Slot(e, st.currentTerm)].candidate == st.id
  {
    assert servers == st.peers + {st.id};
  }

  /** A step that leaves reigns, acks and the node's log alone. */
  ghost predicate Quiet(s: System, s': System, h: History, h': History, n: NodeId) {
    && Near(s, s', h, h', n)
    && h'.reigns == h.reigns && h'.acks == h.acks
    && s'.nodes[n].log == s.nodes[n].log
  }

  /** A step that only concerns term, vote and role (or loses track of the durable log), and raises no role. */
  ghost predicate Ballots(st: NodeState, st': NodeState) {
    && st' == st.(currentTerm := st'.currentTerm, role := st'.role, votedFor := st'.votedFor, wal := st'.wal)
    && (st'.wal.Some? ==> st'.wal == st.wal)
    && st.currentTerm <= st'.currentTerm
    && (!st'.role.Follower? ==> st'.role == st.role && st'.currentTerm == st.currentTerm)
  }

  /** The fields a quiet step leaves alone. */
  ghost predicate SameLogState(st: NodeState, st': NodeState) {
    && st'.log == st.log && st'.commitIndex == st.commitIndex && st'.lastApplied == st.lastApplied
    && st'.applied == st.applied && (st'.wal.Some? ==> st'.wal == st.wal)
  }

  lemma QuietFrom(s: System, st': NodeState, sent: set<Message>, h: History, h': History) returns (s': System)
    requires AllOk(s) && st'.id in s.nodes && Follows(s.nodes[st'.id], st') && SameLogState(s.nodes[st'.id], st')
    requires NodeMoves(s.nodes[st'.id], st') && HistoryMoves(h, h', st'.id, st'.currentTerm)
    requires h'.reigns == h.reigns && h'.acks == h.acks
    ensures s' == Replace(s, st', sent) && s'.nodes[st'.id] == st' && s'.msgs == s.msgs + sent
    ensures Quiet(s, s', h, h', st'.id) && SameLogState(s.nodes[st'.id], st')
  {
    s' := ReplaceNear(s, st', sent, h, h');
  }

  lemma QuietReigns(s: System, s': System, h: History, h': History, n: NodeId)
    requires Quiet(s, s', h, h', n) && ReignsInv(s, h)
    ensures ReignsInv(s', h')
  {
    var t := s'.nodes[n].currentTerm;
    if t in h'.reigns {
      assert ReignOk(h, t) && Elected(s, h, t);
      SoundGrows(h, h', h.reigns[t].log);
    }
    OtherReigns(s, s', h, h', n);
  }

  lemma QuietAcks(s: System, s': System, h: History, h': History, n: NodeId)
    requires Quiet(s, s', h, h', n) && ReignsInv(s, h) && VotesInv(s, h) && AcksInv(s, h)
    ensures AcksOk(s', h') && NodesKeep(s', h') && LeadersKeep(s', h')
  {
    if Slot(n, s'.nodes[n].currentTerm) in h'.acks { assert AckOk(s, h, Slot(n, s'.nodes[n].currentTerm)); }
    OtherAcksOk(s, s', h, h', n);
    forall t | Slot(n, t) in h'.acks ensures AckOk(s', h', Slot(n, t)) && NodeKeeps(h', s'.nodes[n], t) {
      assert NodeKeeps(h, s.nodes[n], Slot(n, t).term);
      SameNodeKeeps(s, h, h', s.nodes[n], s'.nodes[n], t);
    }
    OtherNodesKeep(s, s', h, h', n);
    OtherLeadersKeep(s, s', h, h', n);
  }

  lemma QuietCommits(s: System, s': System, h: History, h': History, n: NodeId)
    requires Near(s, s', h, h', n) && SameLogState(s.nodes[n], s'.nodes[n]) && CommitInv(s, h)
    ensures NodeCommitOk(s', h', s'.nodes[n])
  {
    var st, st' := s.nodes[n], s'.nodes[n];
    assert NodeCommitOk(s, h, st);
    CommittedGrows(s, s', h, h', st.log[..st.commitIndex], st.currentTerm, st'.currentTerm);
  }

  /** The part of the invariant that a quiet step with no new leader, ballot or message keeps by itself. */
  lemma QuietKeeps(s: System, s': System, h: History, h': History, n: NodeId)
    requires Quiet(s, s', h, h', n) && Inv(s, h)
    requires NodeLogOk(h', s'.nodes[n]) && VotesInv(s', h') && NodeCommitOk(s', h', s'.nodes[n])
    requires s'.nodes[n].role.Leader? ==> forall p :: p in s'.nodes[n].peers ==> ProgressOk(h', s'.nodes[n], p)
    requires var k := Slot(n, s'.nodes[n].currentTerm);
             k in h'.ballots && k !in h.ballots ==> h'.ballots[k].log == s'.nodes[n].log
    requires forall m :: m in s'.msgs && m !in s.msgs ==> VoteMessageOk(s', h', m) && AppendMessageOk(s', h', m)
    ensures Inv(s', h')
  {
    QuietReigns(s, s', h, h', n);
    OtherLogs(s, s', h, h', n);
    OtherVoteMessages(s, s', h, h', n);
    QuietAcks(s, s', h, h', n);
    QuietBallotsKeep(s, s', h, h', n);
    OtherAppendMessages(s, s', h, h', n);
    OtherProgress(s, s', h, h', n);
    OtherCommits(s, s', h, h', n);
  }

  lemma SameLog(s: System, h: History, h': History, n: NodeId, st': NodeState)
    requires LogsInv(s, h) && n in s.nodes && Grows(h, h') && h'.reigns == h.reigns
    requires st'.id == s.nodes[n].id && st'.log == s.nodes[n].log && st'.currentTerm >= s.nodes[n].currentTerm
    requires !st'.role.Follower? ==> st'.role == s.nodes[n].role && st'.currentTerm == s.nodes[n].currentTerm
    ensures NodeLogOk(h', st')
  {
    assert NodeLogOk(h, s.nodes[n]);
    SoundGrows(h, h', st'.log);
  }

  lemma SameProgress(s: System, h: History, h': History, n: NodeId, st': NodeState)
    requires AllOk(s) && ProgressInv(s, h) && n in s.nodes && Follows(s.nodes[n], st') && Grows(h, h')
    requires st'.role.Leader? ==> s.nodes[n].role.Leader? && st'.currentTerm == s.nodes[n].currentTerm
    requires st'.matchIndex == s.nodes[n].matchIndex && st'.nextIndex == s.nodes[n].nextIndex
    requires |s.nodes[n].log| <= |st'.log|
    ensures st'.role.Leader? ==> forall p :: p in st'.peers ==> ProgressOk(h', st', p)
  {
    if st'.role.Leader? {
      forall p | p in st'.peers ensures ProgressOk(h', st', p) { assert ProgressOk(h, s.nodes[n], p); }
    }
  }

  /** A quiet step in which the node keeps its role in its term or becomes a follower. */
  lemma QuietStep(s: System, s': System, h: History, h': History, n: NodeId)
    requires Quiet(s, s', h, h', n) && Inv(s, h) && VotesInv(s', h')
    requires var st, st' := s.nodes[n], s'.nodes[n];
             && (!st'.role.Follower? ==> st'.role == st.role && st'.currentTerm == st.currentTerm)
             && st'.matchIndex == st.matchIndex && st'.nextIndex == st.nextIndex && SameLogState(st, st')
    requires var k := Slot(n, s'.nodes[n].currentTerm);
             k in h'.ballots && k !in h.ballots ==> h'.ballots[k].log == s'.nodes[n].log
    requires forall m :: m in s'.msgs && m !in s.msgs ==> VoteMessageOk(s', h', m) && AppendMessageOk(s', h', m)
    ensures Inv(s', h')
  {
    SameLog(s, h, h', n, s'.nodes[n]);
    SameProgress(s, h, h', n, s'.nodes[n]);
    QuietCommits(s, s', h, h', n);
    QuietKeeps(s, s', h, h', n);
  }

  lemma QuietBallotsKeep(s: System, s': System, h: History, h': History, n: NodeId)
    requires Quiet(s, s', h, h', n) && VotesInv(s, h) && AcksOk(s, h) && BallotsKeep(s, h)
    requires AcksOk(s', h') && NodesKeep(s', h')
    requires var k := Slot(n, s'.nodes[n].currentTerm);
             k in h'.ballots && k !in h.ballots ==> h'.ballots[k].log == s'.nodes[n].log
    ensures BallotsKeep(s', h')
  {
    var k := Slot(n, s'.nodes[n].currentTerm);
    if k in h'.ballots && k !in h.ballots && k.term !in h'.reigns {
      forall t: nat | t < k.term && Slot(n, t) in h'.acks ensures AckOk(s', h', Slot(n, t)) && BallotKeeps(h', k, t) {
        assert NodeKeeps(h', s'.nodes[n], Slot(n, t).term);
      }
    }
    OtherBallotsKeep(s, s', h, h', n);
  }
}
