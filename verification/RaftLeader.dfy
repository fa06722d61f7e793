/** The steps of a leader: winning, appending, sending, and folding in a follower's reply. */
module RaftLeader {
  import opened Options
  import opened RaftTypes
  import opened RaftSpec
  import opened RaftSystem
  import opened RaftHistory
  import opened RaftFrame
  import opened RaftElection
  import opened RaftLogMatching
  import opened RaftCompleteness

  /** The scan commits the largest index above the old one that a majority holds with an entry of the current term. */
  lemma {:induction false} AdvanceIsLargest(st: NodeState, idx: nat, c: nat, i: nat)
    requires 1 <= idx <= |st.log| + 1 && c < idx && idx <= i <= |st.log| && Committable(st, i)
    ensures i <= Advance(st, idx, c)
    decreases |st.log| + 1 - idx
  {
    HoldersShrink(st, idx, i);
    if idx < i { AdvanceIsLargest(st, idx + 1, if st.log[idx - 1].term != st.currentTerm then c else idx, i); }
  }

  lemma HoldersShrink(st: NodeState, i: nat, j: nat)
    requires i <= j
    ensures Holders(st, j) <= Holders(st, i)
  {
    Subset(Reached(st, j), Reached(st, i));
  }

  /** A leader whose bookkeeping is true commits only what a quorum has confirmed. */
  ghost predicate LeaderOk(s: System, h: History, st: NodeState) {
    && Ok(st) && st.role.Leader? && st.id in s.nodes && st.peers == s.nodes.Keys - {st.id}
    && st.currentTerm in h.reigns && h.reigns[st.currentTerm].log == st.log
    && Slot(st.id, st.currentTerm) in h.acks && h.acks[Slot(st.id, st.currentTerm)] == |st.log|
    && (forall p :: p in st.peers ==> ProgressOk(h, st, p))
  }

  lemma MajorityHolds(s: System, h: History, st: NodeState, c: nat)
    requires LeaderOk(s, h, st) && 1 <= c <= |st.log| && Committable(st, c)
    ensures Committed(s, h, st.currentTerm, c)
  {
    var q := Reached(st, c) + {st.id};
    forall p | p in q ensures p in Holding(s, h, st.currentTerm, c) {
      if p != st.id { assert ProgressOk(h, st, p); }
    }
    assert s.nodes.Keys == st.peers + {st.id};
    assert |q| == Holders(st, c) && |s.nodes.Keys| == |st.peers| + 1;
    assert Quorum(s.nodes.Keys, q);
    QuorumGrows(s.nodes.Keys, q, Holding(s, h, st.currentTerm, c));
  }

  lemma CommitAdvance(s: System, h: History, st: NodeState)
    requires LeaderOk(s, h, st) && NodeCommitOk(s, h, st)
    ensures NodeCommitOk(s, h, UpdateCommitIndex(st))
  {
    var c := Advance(st, st.commitIndex + 1, st.commitIndex);
    if c > st.commitIndex {
      MajorityHolds(s, h, st, c);
      OwnPrefix(s, h, st, c);
      SpanExtends(st.log, st.commitIndex, c);
    }
  }

  lemma OwnPrefix(s: System, h: History, st: NodeState, c: nat)
    requires Committed(s, h, st.currentTerm, c) && h.reigns[st.currentTerm].log == st.log
    ensures CommittedBy(s, h, st.log[..c], st.currentTerm)
  {
  }

  lemma SpanExtends(log: seq<Entry>, a: nat, b: nat)
    requires a <= b <= |log|
    ensures Span(log, 0, a) + Span(log, a, b) == Span(log, 0, b)
  {
  }

  // ---- appending to one's own log ----

  /** The state of a leader with one more entry, before the commit scan. */
  function Appended(st: NodeState, e: Entry): NodeState {
    st.(log := st.log + [e], wal := Persist(st.wal, [Encode(|st.log| + 1, e)]))
  }

  lemma AppendLocalScans(st: NodeState, e: Entry)
    requires Ok(st)
    ensures Ok(Appended(st, e)) && AppendLocal(st, e) == UpdateCommitIndex(Appended(st, e))
  {
  }

  lemma AppendedCommitOk(s: System, h: History, h': History, st: NodeState, e: Entry)
    requires Ok(st) && Grows(h, h') && NodeCommitOk(s, h, st)
    ensures Ok(Appended(st, e)) && NodeCommitOk(s, h', Appended(st, e))
  {
    var st' := Appended(st, e);
    assert st'.log[..st'.commitIndex] == st.log[..st.commitIndex];
    CommittedGrows(s, s, h, h', st.log[..st.commitIndex], st.currentTerm, st.currentTerm);
    if st.wal.Some? { AppendedRebuilds(st, e); }
  }

  lemma AppendedRebuilds(st: NodeState, e: Entry)
    requires st.wal.Some? && Rebuild([], st.wal.value) == st.log
    ensures Appended(st, e).wal.Some? && Rebuild([], Appended(st, e).wal.value) == Appended(st, e).log
  {
    var rec := Encode(|st.log| + 1, e);
    RebuildConcat([], st.wal.value, [rec]);
    assert Rebuild(st.log, [rec]) == SetEntry(st.log, rec);
  }

  lemma SoundExtend(h: History, h': History, log: seq<Entry>, e: Entry)
    requires Grows(h, h') && Sound(h, log) && e.term in h'.reigns && h'.reigns[e.term].log == log + [e]
    ensures Sound(h', log + [e])
  {
    SoundGrows(h, h', log);
    forall i | 0 <= i < |log + [e]| ensures SoundAt(h', log + [e], i) {
      if i < |log| {
        assert SoundAt(h', log, i);
        assert (log + [e])[..i + 1] == log[..i + 1];
      }
    }
  }

  /** Everything about a step in which the leader `st0` of its term appends an entry of that term:
      the history gains the entry and the leader's own confirmation of it. */
  ghost predicate Appends(s: System, h: History, h': History, st0: NodeState, e: Entry) {
    && AllOk(s) && st0.id in s.nodes && Follows(s.nodes[st0.id], st0) && st0.role.Leader? && e.term == st0.currentTerm
    && st0.log == s.nodes[st0.id].log && st0.currentTerm == s.nodes[st0.id].currentTerm
    && st0.votedFor == s.nodes[st0.id].votedFor && st0.elections == s.nodes[st0.id].elections
    && st0.campaigning == s.nodes[st0.id].campaigning
    && HistoryMoves(h, h', st0.id, st0.currentTerm)
    && h'.ballots == h.ballots
    && st0.currentTerm in h'.reigns && h'.reigns[st0.currentTerm].log == st0.log + [e]
    && h'.reigns[st0.currentTerm].leader == st0.id
    && Slot(st0.id, st0.currentTerm) in h'.acks && h'.acks[Slot(st0.id, st0.currentTerm)] == |st0.log| + 1
  }

  lemma AppendsNear(s: System, h: History, h': History, st0: NodeState, e: Entry) returns (s': System)
    requires Appends(s, h, h', st0, e)
    ensures var st' := UpdateCommitIndex(Appended(st0, e));
            s' == Replace(s, st', {}) && s'.nodes[st0.id] == st' && s'.msgs == s.msgs
    ensures Near(s, s', h, h', st0.id)
  {
    s' := ReplaceNear(s, UpdateCommitIndex(Appended(st0, e)), {}, h, h');
  }

  lemma AppendsNodesKeep(s: System, s': System, h: History, h': History, st0: NodeState, e: Entry)
    requires Appends(s, h, h', st0, e) && Near(s, s', h, h', st0.id)
    requires s'.nodes[st0.id].log == st0.log + [e] && s'.nodes[st0.id].currentTerm == st0.currentTerm
    requires AcksOk(s, h) && NodesKeep(s, h)
    ensures AcksOk(s', h') && NodesKeep(s', h')
  {
    var n := st0.id;
    OtherAcksOk(s, s', h, h', n);
    forall t | Slot(n, t) in h'.acks ensures AckOk(s', h', Slot(n, t)) && NodeKeeps(h', s'.nodes[n], t) {
      assert AckOk(s', h', Slot(n, t));
      if t != st0.currentTerm {
        assert NodeKeeps(h, s.nodes[n], Slot(n, t).term);
        SameNodeKeeps(s, h, h', s.nodes[n], s'.nodes[n], t);
      }
    }
    OtherNodesKeep(s, s', h, h', n);
  }

  lemma AppendsKeepsAcks(s: System, s': System, h: History, h': History, st0: NodeState, e: Entry)
    requires Appends(s, h, h', st0, e) && Near(s, s', h, h', st0.id)
    requires s'.nodes[st0.id].currentTerm == st0.currentTerm
    requires ReignsInv(s, h) && VotesInv(s, h) && AcksInv(s, h) && AcksOk(s', h') && NodesKeep(s', h')
    requires var u := st0.currentTerm;
             u !in h.reigns ==>
               forall k :: k in h'.acks && k.node in h'.reigns[u].electors ==> LeaderKeeps(h', u, k.node, k.term)
    ensures AcksInv(s', h')
  {
    OtherBallotsKeep(s, s', h, h', st0.id);
    OtherLeadersKeep(s, s', h, h', st0.id);
  }

  lemma AppendsVotes(s: System, s': System, h: History, h': History, st0: NodeState, e: Entry)
    requires Appends(s, h, h', st0, e) && Near(s, s', h, h', st0.id) && VotesInv(s, h)
    requires s'.nodes[st0.id] == UpdateCommitIndex(Appended(st0, e))
    ensures VotesInv(s', h')
  {
    var n := st0.id;
    assert NodeVoteOk(h, s.nodes[n]);
    forall t | t in s'.nodes[n].elections ensures CountOk(h', s'.nodes[n], t) { assert CountOk(h, s.nodes[n], t); }
    OtherBallots(s, s', h, h', n);
  }

  lemma AppendsCommits(s: System, s': System, h: History, h': History, st0: NodeState, e: Entry)
    requires Appends(s, h, h', st0, e) && Near(s, s', h, h', st0.id)
    requires s'.nodes[st0.id] == UpdateCommitIndex(Appended(st0, e))
    requires NodeCommitOk(s, h, st0) && (forall p :: p in st0.peers ==> ProgressOk(h', Appended(st0, e), p))
    ensures NodeCommitOk(s', h', s'.nodes[st0.id])
    ensures forall p :: p in st0.peers ==> ProgressOk(h', s'.nodes[st0.id], p)
  {
    var st1 := Appended(st0, e);
    AppendedCommitOk(s, h, h', st0, e);
    assert LeaderOk(s, h', st1);
    CommitAdvance(s, h', st1);
    var st' := UpdateCommitIndex(st1);
    SameHistory(h', st0.id, 0);
    CommittedGrows(s, s', h', h', st'.log[..st'.commitIndex], st'.currentTerm, st'.currentTerm);
    forall p | p in st0.peers ensures ProgressOk(h', st', p) { assert ProgressOk(h', st1, p); }
  }

  /** The log of a leader in office is in order because its reign is. */
  lemma LeaderLogOk(h: History, st: NodeState)
    requires st.role.Leader? && st.currentTerm in h.reigns && ReignOk(h, st.currentTerm)
    requires h.reigns[st.currentTerm].leader == st.id && h.reigns[st.currentTerm].log == st.log
    ensures NodeLogOk(h, st)
  {
    var r := h.reigns[st.currentTerm];
    assert forall i :: 0 <= i < |r.start| ==> r.start[i] == st.log[i];
  }

  /** The outcome of such a step, with the reign itself in order. */
  ghost predicate Lengthened(s: System, s': System, h: History, h': History, st0: NodeState, e: Entry) {
    && Appends(s, h, h', st0, e) && Near(s, s', h, h', st0.id)
    && s'.nodes[st0.id] == UpdateCommitIndex(Appended(st0, e)) && s'.msgs == s.msgs
    && NodeCommitOk(s, h, st0) && (forall p :: p in st0.peers ==> ProgressOk(h', Appended(st0, e), p))
    && e.term in h'.reigns && ReignOk(h', e.term) && Elected(s', h', e.term)
    && NodeLogOk(h', s'.nodes[st0.id]) && AcksInv(s', h')
  }

  /** Appending keeps the invariant. */
  lemma AppendsKeeps(s: System, s': System, h: History, h': History, st0: NodeState, e: Entry)
    requires Lengthened(s, s', h, h', st0, e) && Inv(s, h)
    ensures Inv(s', h')
  {
    var n := st0.id;
    OtherReigns(s, s', h, h', n);
    OtherLogs(s, s', h, h', n);
    AppendsVotes(s, s', h, h', st0, e);
    OtherVoteMessages(s, s', h, h', n);
    OtherAppendMessages(s, s', h, h', n);
    AppendsPositions(s, s', h, h', st0, e);
  }

  lemma AppendsPositions(s: System, s': System, h: History, h': History, st0: NodeState, e: Entry)
    requires Appends(s, h, h', st0, e) && Near(s, s', h, h', st0.id) && ProgressInv(s, h) && CommitInv(s, h)
    requires s'.nodes[st0.id] == UpdateCommitIndex(Appended(st0, e))
    requires NodeCommitOk(s, h, st0) && (forall p :: p in st0.peers ==> ProgressOk(h', Appended(st0, e), p))
    ensures ProgressInv(s', h') && CommitInv(s', h')
  {
    AppendsCommits(s, s', h, h', st0, e);
    OtherProgress(s, s', h, h', st0.id);
    OtherCommits(s, s', h, h', st0.id);
  }

  // ---- Propose ----

  lemma SubmitStep(s: System, h: History, n: NodeId, e: Entry, s': System, h': History)
    requires Inv(s, h) && n in s.nodes && s.nodes[n].role.Leader? && e.term == s.nodes[n].currentTerm
    requires s' == Replace(s, AppendLocal(s.nodes[n], e), {}) && h' == Extend(h, e.term, e)
    ensures Inv(s', h')
  {
    var st := s.nodes[n];
    SubmitAppends(s, h, n, e, h');
    AppendLocalScans(st, e);
    var _ := AppendsNear(s, h, h', st, e);
    SubmitReign(s, s', h, h', n, e);
    AppendsNodesKeep(s, s', h, h', st, e);
    AppendsKeepsAcks(s, s', h, h', st, e);
    assert NodeCommitOk(s, h, st);
    SubmitProgress(s, h, h', n, e);
    AppendsKeeps(s, s', h, h', st, e);
  }

  lemma SubmitProgress(s: System, h: History, h': History, n: NodeId, e: Entry)
    requires AllOk(s) && ProgressInv(s, h) && n in s.nodes && s.nodes[n].role.Leader? && Grows(h, h')
    ensures Ok(Appended(s.nodes[n], e))
    ensures forall p :: p in s.nodes[n].peers ==> ProgressOk(h', Appended(s.nodes[n], e), p)
  {
    forall p | p in s.nodes[n].peers ensures ProgressOk(h', Appended(s.nodes[n], e), p) {
      assert ProgressOk(h, s.nodes[n], p);
    }
  }

  lemma ExtendMoves(h: History, t: nat, e: Entry) returns (h': History)
    requires t in h.reigns
    requires var k := Slot(h.reigns[t].leader, t); k in h.acks && h.acks[k] == |h.reigns[t].log|
    ensures h' == Extend(h, t, e) && HistoryMoves(h, h', h.reigns[t].leader, t)
    ensures h'.reigns[t] == h.reigns[t].(log := h.reigns[t].log + [e]) && h'.ballots == h.ballots
    ensures h'.acks == h.acks[Slot(h.reigns[t].leader, t) := |h.reigns[t].log| + 1]
  {
    h' := Extend(h, t, e);
  }

  lemma SubmitAppends(s: System, h: History, n: NodeId, e: Entry, h': History)
    requires AllOk(s) && LogsInv(s, h) && ReignsInv(s, h)
    requires n in s.nodes && s.nodes[n].role.Leader? && e.term == s.nodes[n].currentTerm && h' == Extend(h, e.term, e)
    ensures Appends(s, h, h', s.nodes[n], e)
  {
    assert NodeLogOk(h, s.nodes[n]) && Elected(s, h, e.term);
    var _ := ExtendMoves(h, e.term, e);
  }

  lemma SubmitReign(s: System, s': System, h: History, h': History, n: NodeId, e: Entry)
    requires Near(s, s', h, h', n) && Appends(s, h, h', s.nodes[n], e)
    requires LogsInv(s, h) && ReignsInv(s, h) && e.term in h.reigns
    requires s'.nodes[n] == UpdateCommitIndex(Appended(s.nodes[n], e))
    ensures ReignOk(h', e.term) && Elected(s', h', e.term) && NodeLogOk(h', s'.nodes[n])
  {
    var st := s.nodes[n];
    assert NodeLogOk(h, st) && ReignOk(h, e.term) && Elected(s, h, e.term);
    ExtendedReign(h, h', e.term, e);
    LeaderLogOk(h', s'.nodes[n]);
  }

  /** A leader's log is still in order with one more entry of its term. */
  lemma ExtendedReign(h: History, h': History, t: nat, e: Entry)
    requires Grows(h, h') && t in h.reigns && ReignOk(h, t) && e.term == t
    requires h'.reigns[t] == h.reigns[t].(log := h.reigns[t].log + [e])
    ensures ReignOk(h', t)
  {
    SoundExtend(h, h', h.reigns[t].log, e);
  }
}
