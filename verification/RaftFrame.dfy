/** What every action leaves alone. `Near` says that only one node moved and that the history changed
    only at that node's new term; the lemmas carry each part of the invariant over to everything else. */
module RaftFrame {
  import opened Options
  import opened RaftTypes
  import opened RaftSpec
  import opened RaftSystem
  import opened RaftHistory

  ghost predicate Near(s: System, s': System, h: History, h': History, n: NodeId) {
    && AllOk(s) && AllOk(s') && n in s.nodes && s'.nodes.Keys == s.nodes.Keys
    && (forall m :: m in s.nodes && m != n ==> s'.nodes[m] == s.nodes[m])
    && s.msgs <= s'.msgs
    && NodeMoves(s.nodes[n], s'.nodes[n])
    && HistoryMoves(h, h', n, s'.nodes[n].currentTerm)
  }

  /** Terms never go back, and a node becomes a candidate only in a fresh term. */
  ghost predicate NodeMoves(st: NodeState, st': NodeState) {
    && st.currentTerm <= st'.currentTerm
    && (st'.role.Candidate? ==>
          st'.currentTerm > st.currentTerm
          || (st.role.Candidate? && st'.currentTerm == st.currentTerm && st'.log == st.log))
  }

  ghost predicate HistoryMoves(h: History, h': History, n: NodeId, term: nat) {
    && Grows(h, h')
    && (forall t :: t in h'.reigns && (t in h.reigns ==> h'.reigns[t] != h.reigns[t]) ==>
          h'.reigns[t].leader == n && t == term)
    && (forall k :: k in h'.ballots && k !in h.ballots ==> k == Slot(n, term))
    && (forall k :: k in h'.acks && (k in h.acks ==> h'.acks[k] != h.acks[k]) ==> k == Slot(n, term))
  }

  lemma SameHistory(h: History, n: NodeId, term: nat)
    ensures HistoryMoves(h, h, n, term)
  {
  }

  lemma NewBallot(h: History, k: Slot, b: Ballot) returns (h': History)
    requires k !in h.ballots
    ensures h' == h.(ballots := h.ballots[k := b]) && HistoryMoves(h, h', k.node, k.term)
  {
    h' := h.(ballots := h.ballots[k := b]);
  }

  lemma ReplaceNear(s: System, st': NodeState, sent: set<Message>, h: History, h': History) returns (s': System)
    requires AllOk(s) && st'.id in s.nodes && Follows(s.nodes[st'.id], st')
    requires NodeMoves(s.nodes[st'.id], st') && HistoryMoves(h, h', st'.id, st'.currentTerm)
    ensures s' == Replace(s, st', sent) && s'.nodes[st'.id] == st' && s'.msgs == s.msgs + sent
    ensures Near(s, s', h, h', st'.id)
  {
    s' := Replace(s, st', sent);
  }

  lemma OtherLogs(s: System, s': System, h: History, h': History, n: NodeId)
    requires Near(s, s', h, h', n) && LogsInv(s, h)
    requires NodeLogOk(h', s'.nodes[n])
    ensures LogsInv(s', h')
  {
    forall m | m in s'.nodes ensures NodeLogOk(h', s'.nodes[m]) {
      if m != n {
        assert NodeLogOk(h, s.nodes[m]);
        SoundGrows(h, h', s.nodes[m].log);
      }
    }
  }

  lemma OtherReigns(s: System, s': System, h: History, h': History, n: NodeId)
    requires Near(s, s', h, h', n) && ReignsInv(s, h)
    requires s'.nodes[n].currentTerm in h'.reigns ==>
               ReignOk(h', s'.nodes[n].currentTerm) && Elected(s', h', s'.nodes[n].currentTerm)
    ensures ReignsInv(s', h')
  {
    forall t | t in h'.reigns ensures ReignOk(h', t) && Elected(s', h', t) {
      if t != s'.nodes[n].currentTerm {
        assert ReignOk(h, t) && Elected(s, h, t);
        SoundGrows(h, h', h.reigns[t].log);
      }
    }
  }

  lemma OtherBallots(s: System, s': System, h: History, h': History, n: NodeId)
    requires Near(s, s', h, h', n) && VotesInv(s, h)
    requires NodeVoteOk(h', s'.nodes[n])
    requires Slot(n, s'.nodes[n].currentTerm) in h'.ballots && Slot(n, s'.nodes[n].currentTerm) !in h.ballots ==>
               BallotOk(s', h', Slot(n, s'.nodes[n].currentTerm))
    requires forall t :: t in s'.nodes[n].elections ==> CountOk(h', s'.nodes[n], t)
    ensures VotesInv(s', h')
  {
    forall k | k in h'.ballots ensures BallotOk(s', h', k) {
      if k in h.ballots {
        assert BallotOk(s, h, k);
        SoundGrows(h, h', h.ballots[k].log);
      }
    }
    forall m | m in s'.nodes ensures NodeVoteOk(h', s'.nodes[m]) {
      if m != n {
        assert NodeVoteOk(h, s.nodes[m]);
        assert Slot(m, s.nodes[m].currentTerm) != Slot(n, s'.nodes[n].currentTerm);
      }
    }
    OtherCounts(s, s', h, h', n);
  }

  lemma OtherCounts(s: System, s': System, h: History, h': History, n: NodeId)
    requires Near(s, s', h, h', n) && VotesInv(s, h)
    requires forall t :: t in s'.nodes[n].elections ==> CountOk(h', s'.nodes[n], t)
    ensures forall m, t :: m in s'.nodes && t in s'.nodes[m].elections ==> CountOk(h', s'.nodes[m], t)
  {
    forall m, t | m in s'.nodes && t in s'.nodes[m].elections ensures CountOk(h', s'.nodes[m], t) {
      if m != n { assert CountOk(h, s.nodes[m], t); }
    }
  }

  lemma OtherVoteMessages(s: System, s': System, h: History, h': History, n: NodeId)
    requires Near(s, s', h, h', n) && VoteMessagesInv(s, h)
    requires forall m :: m in s'.msgs && m !in s.msgs ==> VoteMessageOk(s', h', m)
    ensures VoteMessagesInv(s', h')
  {
    forall m | m in s'.msgs ensures VoteMessageOk(s', h', m) {
      if m in s.msgs { assert VoteMessageOk(s, h, m); }
    }
  }

  lemma OtherAppendArgs(s: System, s': System, h: History, h': History, a: AppendArgs)
    requires s'.nodes.Keys == s.nodes.Keys && Grows(h, h') && AppendArgsOk(s, h, a)
    ensures AppendArgsOk(s', h', a)
  {
    var log, log' := h.reigns[a.term].log, h'.reigns[a.term].log;
    assert log <= log';
    assert log'[..a.leaderCommit] == log[..a.leaderCommit];
    CommittedGrows(s, s', h, h', log[..a.leaderCommit], a.term, a.term);
  }

  lemma OtherAppendMessages(s: System, s': System, h: History, h': History, n: NodeId)
    requires Near(s, s', h, h', n) && AppendMessagesInv(s, h)
    requires forall m :: m in s'.msgs && m !in s.msgs ==> AppendMessageOk(s', h', m)
    ensures AppendMessagesInv(s', h')
  {
    forall m | m in s'.msgs ensures AppendMessageOk(s', h', m) {
      if m in s.msgs {
        assert AppendMessageOk(s, h, m);
        if m.AppendRequest? || (m.AppendResponse? && m.result.success) {
          OtherAppendArgs(s, s', h, h', m.append);
        }
      }
    }
  }

  lemma OtherProgress(s: System, s': System, h: History, h': History, n: NodeId)
    requires Near(s, s', h, h', n) && ProgressInv(s, h)
    requires s'.nodes[n].role.Leader? ==> forall p :: p in s'.nodes[n].peers ==> ProgressOk(h', s'.nodes[n], p)
    ensures ProgressInv(s', h')
  {
    forall m, p | m in s'.nodes && s'.nodes[m].role.Leader? && p in s'.nodes[m].peers
      ensures ProgressOk(h', s'.nodes[m], p)
    {
      if m != n { assert ProgressOk(h, s.nodes[m], p); }
    }
  }

  lemma OtherCommits(s: System, s': System, h: History, h': History, n: NodeId)
    requires Near(s, s', h, h', n) && CommitInv(s, h)
    requires NodeCommitOk(s', h', s'.nodes[n])
    ensures CommitInv(s', h')
  {
    forall m | m in s'.nodes ensures NodeCommitOk(s', h', s'.nodes[m]) {
      if m != n {
        var st := s.nodes[m];
        assert NodeCommitOk(s, h, st);
        CommittedGrows(s, s', h, h', st.log[..st.commitIndex], st.currentTerm, st.currentTerm);
      }
    }
  }

  // ---- acks ----

  lemma OtherAcksOk(s: System, s': System, h: History, h': History, n: NodeId)
    requires Near(s, s', h, h', n) && AcksOk(s, h)
    requires Slot(n, s'.nodes[n].currentTerm) in h'.acks ==> AckOk(s', h', Slot(n, s'.nodes[n].currentTerm))
    ensures AcksOk(s', h')
  {
    forall k | k in h'.acks ensures AckOk(s', h', k) {
      if k != Slot(n, s'.nodes[n].currentTerm) {
        assert AckOk(s, h, k);
        assert h.reigns[k.term].log <= h'.reigns[k.term].log;
      }
    }
  }

  lemma OtherNodesKeep(s: System, s': System, h: History, h': History, n: NodeId)
    requires Near(s, s', h, h', n) && AcksOk(s, h) && NodesKeep(s, h) && AcksOk(s', h')
    requires forall t :: Slot(n, t) in h'.acks ==> NodeKeeps(h', s'.nodes[n], t)
    ensures NodesKeep(s', h')
  {
    forall k | k in h'.acks ensures NodeKeeps(h', s'.nodes[k.node], k.term) {
      if k.node != n {
        assert k in h.acks && h.acks[k] == h'.acks[k];
        SameNodeKeeps(s, h, h', s.nodes[k.node], s.nodes[k.node], k.term);
      } else {
        assert k == Slot(n, k.term);
      }
    }
  }

  /** A node that keeps its log and confirms nothing new keeps what it had. */
  lemma SameNodeKeeps(s: System, h: History, h': History, st: NodeState, st': NodeState, t: nat)
    requires Grows(h, h') && AcksOk(s, h) && st'.id == st.id && st.log <= st'.log && st.currentTerm <= st'.currentTerm
    requires Slot(st.id, t) in h.acks && NodeKeeps(h, st, t)
    requires h'.acks[Slot(st.id, t)] == h.acks[Slot(st.id, t)]
    ensures t in h'.reigns && h'.acks[Slot(st.id, t)] <= |h'.reigns[t].log| && NodeKeeps(h', st', t)
  {
    assert AckOk(s, h, Slot(st.id, t));
    assert h.reigns[t].log <= h'.reigns[t].log;
    forall i | 0 <= i <= h'.acks[Slot(st.id, t)] && Survives(h', t, i, st'.currentTerm)
      ensures h'.reigns[t].log[..i] <= st'.log
    {
      SurvivesShrinks(h, h', t, i, st.currentTerm, st'.currentTerm);
    }
  }

  lemma OtherBallotsKeep(s: System, s': System, h: History, h': History, n: NodeId)
    requires Near(s, s', h, h', n) && VotesInv(s, h) && AcksOk(s, h) && BallotsKeep(s, h) && AcksOk(s', h')
    requires var k := Slot(n, s'.nodes[n].currentTerm);
             k in h'.ballots && k !in h.ballots && k.term !in h'.reigns ==>
               forall t: nat :: t < k.term && Slot(n, t) in h'.acks ==> BallotKeeps(h', k, t)
    ensures BallotsKeep(s', h')
  {
    forall k, t: nat | k in h'.ballots && k.term !in h'.reigns && t < k.term && Slot(k.node, t) in h'.acks
      ensures BallotKeeps(h', k, t)
    {
      if k in h.ballots {
        OldBallotKeeps(s, s', h, h', n, k, t);
      }
    }
  }

  lemma OldBallotKeeps(s: System, s': System, h: History, h': History, n: NodeId, k: Slot, t: nat)
    requires Near(s, s', h, h', n) && VotesInv(s, h) && AcksOk(s, h) && BallotsKeep(s, h) && AcksOk(s', h')
    requires k in h.ballots && k.term !in h'.reigns && t < k.term && Slot(k.node, t) in h'.acks
    ensures AckOk(s', h', Slot(k.node, t)) && BallotKeeps(h', k, t)
  {
    assert BallotOk(s, h, k);
    var j := Slot(k.node, t);
    assert j in h.acks && h'.acks[j] == h.acks[j];
    assert AckOk(s, h, j) && AckOk(s', h', j);
    assert BallotKeeps(h, k, t);
    assert h.reigns[t].log <= h'.reigns[t].log;
    forall i | 0 <= i <= h'.acks[j] && Survives(h', t, i, k.term)
      ensures h'.reigns[t].log[..i] <= h'.ballots[k].log
    {
      SurvivesShrinks(h, h', t, i, k.term, k.term);
    }
  }

  lemma OtherLeadersKeep(s: System, s': System, h: History, h': History, n: NodeId)
    requires Near(s, s', h, h', n) && AllElected(s, h) && VotesInv(s, h)
    requires AcksOk(s, h) && LeadersKeep(s, h) && AcksOk(s', h')
    requires var u := s'.nodes[n].currentTerm;
             u in h'.reigns && u !in h.reigns ==>
               forall k :: k in h'.acks && k.node in h'.reigns[u].electors ==> LeaderKeeps(h', u, k.node, k.term)
    ensures LeadersKeep(s', h')
  {
    forall u, k | u in h'.reigns && k in h'.acks && k.node in h'.reigns[u].electors
      ensures LeaderKeeps(h', u, k.node, k.term)
    {
      if u in h.reigns {
        OldLeaderKeeps(s, s', h, h', n, u, k);
      } else {
        assert u == s'.nodes[n].currentTerm;
      }
    }
  }

  lemma OldLeaderKeeps(s: System, s': System, h: History, h': History, n: NodeId, u: nat, k: Slot)
    requires Near(s, s', h, h', n) && AllElected(s, h) && VotesInv(s, h)
    requires AcksOk(s, h) && LeadersKeep(s, h) && AcksOk(s', h')
    requires u in h.reigns && k in h'.acks && k.node in h.reigns[u].electors
    ensures u in h'.reigns && AckOk(s', h', k) && LeaderKeeps(h', u, k.node, k.term)
  {
    assert k == Slot(k.node, k.term);
    assert Elected(s, h, u) && BallotOk(s, h, Slot(k.node, u)) && AckOk(s', h', k);
    if k.term < u {
      assert k in h.acks && h'.acks[k] == h.acks[k];
      assert AckOk(s, h, k) && LeaderKeeps(h, u, k.node, k.term);
      SameLeaderKeeps(h, h', u, k);
    }
  }

  lemma SameLeaderKeeps(h: History, h': History, u: nat, k: Slot)
    requires Grows(h, h') && u in h.reigns && k in h.acks && k == Slot(k.node, k.term) && h'.acks[k] == h.acks[k]
    requires k.term in h.reigns && h.acks[k] <= |h.reigns[k.term].log| && LeaderKeeps(h, u, k.node, k.term) && k.term < u
    ensures h'.acks[k] <= |h'.reigns[k.term].log| && LeaderKeeps(h', u, k.node, k.term)
  {
    var t := k.term;
    assert h.reigns[t].log <= h'.reigns[t].log;
    forall i | 1 <= i <= h'.acks[k] && h'.reigns[t].log[i - 1].term == t && Survives(h', t, i, u - 1)
      ensures h'.reigns[t].log[..i] <= h'.reigns[u].start
    {
      SurvivesShrinks(h, h', t, i, u - 1, u - 1);
    }
  }
}
