/** Winning an election: the new leader starts from everything that was confirmed before. */
module RaftWin {
  import opened Options
  import opened RaftTypes
  import opened RaftSpec
  import opened RaftSystem
  import opened RaftHistory
  import opened RaftFrame
  import opened RaftElection
  import opened RaftCompleteness
  import opened RaftLeader

  function WinHistory(st: NodeState, h: History): History
    requires st.currentTerm in st.elections
  {
    var t := st.currentTerm;
    h.(reigns := h.reigns[t := Reign(st.id, st.elections[t], st.log, st.log + [Entry(t, None)])],
       acks := h.acks[Slot(st.id, t) := |st.log| + 1])
  }

  /** A candidate with a majority of votes in a term nobody has won. */
  ghost predicate Wins(s: System, h: History, n: NodeId) {
    && AllOk(s) && n in s.nodes && s.nodes[n].role.Candidate?
    && var st := s.nodes[n];
    && st.currentTerm in st.elections && |st.elections[st.currentTerm]| >= Majority(st)
  }

  ghost predicate Voted(h: History, n: NodeId, t: nat, q: set<NodeId>) {
    forall e :: e in q ==> Slot(e, t) in h.ballots && h.ballots[Slot(e, t)].candidate == n
  }

  lemma WinStep(s: System, h: History, n: NodeId, s': System, h': History)
    requires Inv(s, h) && Wins(s, h, n) && h' == WinHistory(s.nodes[n], h)
    requires s' == Replace(s, AppendLocal(Crowned(s.nodes[n]), Entry(s.nodes[n].currentTerm, None)), {})
    ensures Inv(s', h')
  {
    TermIsFree(s, h, n);
    var _ := WinNear(s, h, n, h');
    WinReign(s, s', h, h', n);
    WinAcks(s, s', h, h', n);
    WinRest(s, s', h, h', n);
  }

  lemma WinMoves(h: History, st: NodeState) returns (h': History)
    requires st.currentTerm in st.elections && st.currentTerm !in h.reigns && Slot(st.id, st.currentTerm) !in h.acks
    ensures h' == WinHistory(st, h) && HistoryMoves(h, h', st.id, st.currentTerm)
  {
    h' := WinHistory(st, h);
  }

  ghost predicate Won(s: System, s': System, h: History, h': History, n: NodeId) {
    && Near(s, s', h, h', n) && Ok(s.nodes[n]) && s.nodes[n].currentTerm in s.nodes[n].elections && h' == WinHistory(s.nodes[n], h)
    && Appends(s, h, h', Crowned(s.nodes[n]), Entry(s.nodes[n].currentTerm, None))
    && s'.nodes[n] == UpdateCommitIndex(Appended(Crowned(s.nodes[n]), Entry(s.nodes[n].currentTerm, None))) && s'.msgs == s.msgs
  }

  lemma WinNear(s: System, h: History, n: NodeId, h': History) returns (s': System)
    requires Wins(s, h, n) && AcksOk(s, h) && s.nodes[n].currentTerm !in h.reigns && h' == WinHistory(s.nodes[n], h)
    ensures s' == Replace(s, AppendLocal(Crowned(s.nodes[n]), Entry(s.nodes[n].currentTerm, None)), {})
    ensures Won(s, s', h, h', n)
  {
    var st := s.nodes[n];
    var k := Slot(n, st.currentTerm);
    assert k in h.acks ==> AckOk(s, h, k);
    var _ := WinMoves(h, st);
    AppendLocalScans(Crowned(st), Entry(st.currentTerm, None));
    s' := AppendsNear(s, h, h', Crowned(st), Entry(st.currentTerm, None));
  }

  lemma WinReign(s: System, s': System, h: History, h': History, n: NodeId)
    requires Won(s, s', h, h', n) && LogsInv(s, h) && s.nodes[n].role.Candidate?
    requires Quorum(s.nodes.Keys, s.nodes[n].elections[s.nodes[n].currentTerm])
    requires Voted(h, n, s.nodes[n].currentTerm, s.nodes[n].elections[s.nodes[n].currentTerm])
    ensures var t := s.nodes[n].currentTerm; ReignOk(h', t) && Elected(s', h', t)
    ensures NodeLogOk(h', s'.nodes[n])
  {
    var st := s.nodes[n];
    assert NodeLogOk(h, st);
    WinReignOk(h, h', st);
    AppendLocalFields(Crowned(st), Entry(st.currentTerm, None));
    LeaderLogOk(h', s'.nodes[n]);
  }

  lemma AppendLocalFields(st: NodeState, e: Entry)
    requires Ok(st)
    ensures var r := UpdateCommitIndex(Appended(st, e));
            r == st.(log := st.log + [e], wal := r.wal, commitIndex := r.commitIndex, lastApplied := r.lastApplied,
                     applied := r.applied)
  {
  }

  lemma WinReignOk(h: History, h': History, st: NodeState)
    requires Grows(h, h') && NodeLogOk(h, st) && st.role.Candidate?
    requires st.currentTerm in st.elections && h' == WinHistory(st, h)
    ensures ReignOk(h', st.currentTerm)
  {
    SoundExtend(h, h', st.log, Entry(st.currentTerm, None));
  }

  lemma WinAcks(s: System, s': System, h: History, h': History, n: NodeId)
    requires Won(s, s', h, h', n) && s.nodes[n].role.Candidate? && s.nodes[n].currentTerm !in h.reigns
    requires ReignsInv(s, h) && LogsInv(s, h) && VotesInv(s, h) && AcksInv(s, h)
    requires Voted(h, n, s.nodes[n].currentTerm, s.nodes[n].elections[s.nodes[n].currentTerm])
    ensures AcksInv(s', h')
  {
    var e := Entry(s.nodes[n].currentTerm, None);
    AppendsNodesKeep(s, s', h, h', Crowned(s.nodes[n]), e);
    NewLeaderKeeps(s, s', h, h', n);
    AppendsKeepsAcks(s, s', h, h', Crowned(s.nodes[n]), e);
  }

  lemma WinRest(s: System, s': System, h: History, h': History, n: NodeId)
    requires Won(s, s', h, h', n) && Inv(s, h) && AcksInv(s', h')
    requires ReignOk(h', s.nodes[n].currentTerm) && Elected(s', h', s.nodes[n].currentTerm)
    requires NodeLogOk(h', s'.nodes[n])
    ensures Inv(s', h')
  {
    var st0, e := Crowned(s.nodes[n]), Entry(s.nodes[n].currentTerm, None);
    assert NodeCommitOk(s, h, s.nodes[n]);
    WonIsLengthened(s, s', h, h', n, st0, e);
    AppendsKeeps(s, s', h, h', st0, e);
  }

  lemma WonIsLengthened(s: System, s': System, h: History, h': History, n: NodeId, st0: NodeState, e: Entry)
    requires Won(s, s', h, h', n) && AcksInv(s', h') && NodeCommitOk(s, h, s.nodes[n])
    requires ReignOk(h', s.nodes[n].currentTerm) && Elected(s', h', s.nodes[n].currentTerm)
    requires NodeLogOk(h', s'.nodes[n]) && st0 == Crowned(s.nodes[n]) && e == Entry(s.nodes[n].currentTerm, None)
    ensures Lengthened(s, s', h, h', st0, e)
  {
    CrownedReady(s, h, h', s.nodes[n], st0, e);
  }

  /** A new leader has committed what it had committed before, and knows nothing of its peers. */
  lemma CrownedReady(s: System, h: History, h': History, st: NodeState, st0: NodeState, e: Entry)
    requires Ok(st) && st0 == Crowned(st) && NodeCommitOk(s, h, st)
    ensures NodeCommitOk(s, h, st0) && Ok(Appended(st0, e))
    ensures forall p :: p in st0.peers ==> ProgressOk(h', Appended(st0, e), p)
  {
  }

  lemma NewLeaderKeeps(s: System, s': System, h: History, h': History, n: NodeId)
    requires AllOk(s) && n in s.nodes && s.nodes[n].role.Candidate? && s.nodes[n].currentTerm in s.nodes[n].elections
    requires ReignsInv(s, h) && LogsInv(s, h) && VotesInv(s, h) && AcksInv(s, h)
    requires HistoryMoves(h, h', n, s.nodes[n].currentTerm) && h' == WinHistory(s.nodes[n], h)
    requires s.nodes[n].currentTerm !in h.reigns && AcksOk(s', h')
    requires Voted(h, n, s.nodes[n].currentTerm, s.nodes[n].elections[s.nodes[n].currentTerm])
    ensures var u := s.nodes[n].currentTerm;
            forall k :: k in h'.acks && k.node in h'.reigns[u].electors ==> LeaderKeeps(h', u, k.node, k.term)
  {
    var u := s.nodes[n].currentTerm;
    forall k | k in h'.acks && k.node in h'.reigns[u].electors ensures LeaderKeeps(h', u, k.node, k.term) {
      assert AckOk(s', h', k);
      if k.term < u {
        assert k in h.acks && h'.acks[k] == h.acks[k];
        assert NodeLogOk(h, s.nodes[n]) && BallotOk(s, h, Slot(k.node, u)) && AckOk(s, h, k);
        assert Slot(k.node, k.term) == k && BallotKeeps(h, Slot(k.node, u), k.term);
        KeptByLeader(s, h, h', s.nodes[n], u, k);
      }
    }
  }

  /** The leader of `u` has what an elector had confirmed before voting for it. */
  lemma KeptByLeader(s: System, h: History, h': History, st: NodeState, u: nat, k: Slot)
    requires ReignsInv(s, h) && Grows(h, h') && u !in h.reigns && u in h'.reigns && h'.reigns[u].start == st.log
    requires k in h.acks && h'.acks[k] == h.acks[k] && k.term < u && k.term in h.reigns
    requires h.acks[k] <= |h.reigns[k.term].log|
    requires Slot(k.node, u) in h.ballots && Slot(k.node, k.term) == k && BallotKeeps(h, Slot(k.node, u), k.term)
    requires Sound(h, h.ballots[Slot(k.node, u)].log) && Sound(h, st.log) && TermsBelow(st.log, u)
    requires UpToDate(LastTerm(st.log), |st.log|, h.ballots[Slot(k.node, u)].log)
    ensures k.term in h'.reigns && h'.acks[k] <= |h'.reigns[k.term].log| && LeaderKeeps(h', u, k.node, k.term)
  {
    var t := k.term;
    assert h.reigns[t].log <= h'.reigns[t].log;
    forall i | 1 <= i <= h'.acks[k] && h'.reigns[t].log[i - 1].term == t && Survives(h', t, i, u - 1)
      ensures h'.reigns[t].log[..i] <= h'.reigns[u].start
    {
      SurvivesShrinks(h, h', t, i, u - 1, u - 1);
      SurvivesUnwon(h, t, i, u);
      UpToDateKeeps(s, h, st.log, h.ballots[Slot(k.node, u)].log, t, i, u);
    }
  }

  lemma SurvivesUnwon(h: History, t: nat, i: nat, u: nat)
    requires t in h.reigns && i <= |h.reigns[t].log| && u >= 1 && u !in h.reigns && Survives(h, t, i, u - 1)
    ensures Survives(h, t, i, u)
  {
  }
}
