/** A follower handling AppendEntries: it never loses anything committed or confirmed, so the branch that
    rolls the apply position back is dead. */
module RaftFollower {
  import opened Options
  import opened RaftTypes
  import opened RaftSpec
  import opened RaftSystem
  import opened RaftHistory
  import opened RaftFrame
  import opened RaftElection
  import opened RaftCampaign
  import opened RaftLogMatching
  import opened RaftCompleteness

  // ---- rejection ----

  lemma RejectStep(s: System, h: History, n: NodeId, args: AppendArgs, st': NodeState, s': System, m: Message)
    requires Inv(s, h) && n in s.nodes && Follows(s.nodes[n], st') && Ballots(s.nodes[n], st')
    requires st'.currentTerm == s.nodes[n].currentTerm ==> st'.votedFor == s.nodes[n].votedFor
    requires st'.currentTerm > s.nodes[n].currentTerm ==> st'.votedFor == None
    requires m.AppendResponse? && m.from == n && !m.result.success && s' == Replace(s, st', {m})
    ensures Inv(s', h)
  {
    RejectQuiet(s, h, n, st', s', m);
    VoteBallots(s, h, n, s', h);
    QuietStep(s, s', h, h, n);
  }

  lemma RejectQuiet(s: System, h: History, n: NodeId, st': NodeState, s': System, m: Message)
    requires AllOk(s) && VotesInv(s, h) && n in s.nodes && Follows(s.nodes[n], st') && Ballots(s.nodes[n], st')
    requires st'.currentTerm == s.nodes[n].currentTerm ==> st'.votedFor == s.nodes[n].votedFor
    requires st'.currentTerm > s.nodes[n].currentTerm ==> st'.votedFor == None
    requires m.AppendResponse? && m.from == n && !m.result.success && s' == Replace(s, st', {m})
    ensures Quiet(s, s', h, h, n) && s'.nodes[n] == st' && NodeVoteOk(h, st')
    ensures forall x :: x in s'.msgs && x !in s.msgs ==> VoteMessageOk(s', h, x) && AppendMessageOk(s', h, x)
  {
    assert NodeVoteOk(h, s.nodes[n]);
    if st'.currentTerm > s.nodes[n].currentTerm { FreshTerm(s, h, n, st'.currentTerm); }
    SameHistory(h, n, st'.currentTerm);
    var _ := QuietFrom(s, st', {m}, h, h);
  }

  // ---- acceptance ----

  /** The follower's state after accepting `args`, when nothing had to be rolled back. */
  function Accepted(st: NodeState, args: AppendArgs): NodeState
    requires Ok(st) && args.prevLogIndex <= |st.log| && st.commitIndex <= |Merged(st.log, args.prevLogIndex, args.entries)|
  {
    var log := Merged(st.log, args.prevLogIndex, args.entries);
    var c := if args.leaderCommit > st.commitIndex then Min(args.leaderCommit, |log|) else st.commitIndex;
    st.(role := Follower, currentTerm := args.term,
        votedFor := if args.term > st.currentTerm then None else st.votedFor,
        log := log, wal := Persist(st.wal, Missing(st.log, args.prevLogIndex, args.entries)),
        commitIndex := c, lastApplied := c, applied := st.applied + Span(log, st.lastApplied, c))
  }

  /** The request fits the follower: it comes from the leader of its term, the follower's log agrees with it at
      the previous index, and what the follower has committed is in the leader's log. */
  ghost predicate Acceptable(s: System, h: History, st: NodeState, args: AppendArgs) {
    && Ok(st) && NodeLogOk(h, st) && AppendArgsOk(s, h, args) && ReignOk(h, args.term)
    && st.currentTerm <= args.term
    && args.prevLogIndex <= |st.log| && (args.prevLogIndex > 0 ==> TermAt(st.log, args.prevLogIndex) == args.prevLogTerm)
    && st.log[..st.commitIndex] <= h.reigns[args.term].log
  }

  lemma AcceptableFits(s: System, h: History, st: NodeState, args: AppendArgs)
    requires Acceptable(s, h, st, args)
    ensures Fits(h, st.log, h.reigns[args.term].log, args.prevLogIndex, args.entries)
  {
  }

  /** The first conflict, if any, is above everything committed. */
  lemma ConflictAboveCommit(s: System, h: History, st: NodeState, args: AppendArgs)
    requires Acceptable(s, h, st, args)
    ensures var k := MatchLength(st.log, args.prevLogIndex, args.entries);
            k < |args.entries| ==> st.commitIndex <= args.prevLogIndex + k
  {
    var k := MatchLength(st.log, args.prevLogIndex, args.entries);
    if k < |args.entries| {
      FirstDifference(st.log, st.commitIndex, h.reigns[args.term].log, args.prevLogIndex, args.entries, k);
    }
  }

  /** Logs that differ where an entry of `es` belongs have no longer prefix in common. */
  lemma FirstDifference(log: seq<Entry>, c: nat, r: seq<Entry>, prev: nat, es: seq<Entry>, k: nat)
    requires c <= |log| && log[..c] <= r && prev + |es| <= |r| && es == r[prev..prev + |es|]
    requires k < |es| && prev + k <= |log| && (prev + k < |log| ==> log[prev + k] != es[k])
    ensures c <= prev + k
  {
    AtSlice(r, prev, es, k);
    assert forall j :: 0 <= j < c ==> log[..c][j] == log[j] && log[..c][j] == r[j];
  }

  lemma AtSlice(r: seq<Entry>, prev: nat, es: seq<Entry>, k: nat)
    requires prev + |es| <= |r| && es == r[prev..prev + |es|] && k < |es|
    ensures es[k] == r[prev + k]
  {
  }

  /** What merging does to the committed part: nothing. */
  lemma MergeKeepsCommitted(s: System, h: History, st: NodeState, args: AppendArgs)
    requires Acceptable(s, h, st, args)
    ensures var log := Merged(st.log, args.prevLogIndex, args.entries);
            && st.commitIndex <= |log| && log[..st.commitIndex] == st.log[..st.commitIndex]
            && h.reigns[args.term].log[..args.prevLogIndex + |args.entries|] <= log
  {
    var r := h.reigns[args.term].log;
    AcceptableFits(s, h, st, args);
    MergeIsPrefix(h, st.log, r, args.prevLogIndex, args.entries);
    ConflictAboveCommit(s, h, st, args);
    PrefixInMerge(st.log, r, st.commitIndex, args.prevLogIndex + |args.entries|);
  }

  lemma PrefixInMerge(log: seq<Entry>, r: seq<Entry>, c: nat, end: nat)
    requires c <= |log| && log[..c] <= r && end <= |r|
    ensures c <= end ==> r[..end][..c] == log[..c]
  {
    assert c <= end ==> r[..end][..c] == r[..c];
  }

  /** The handler computes `Accepted`: the rollback branch is never taken. */
  lemma HandlerAccepts(s: System, h: History, st: NodeState, args: AppendArgs, diskOk: bool)
    requires Acceptable(s, h, st, args)
    requires diskOk || Missing(st.log, args.prevLogIndex, args.entries) == []
    ensures st.commitIndex <= |Merged(st.log, args.prevLogIndex, args.entries)|
    ensures HandleAppendEntries(st, args, diskOk) == (Accepted(st, args), AppendReply(st.currentTerm, true))
  {
    MergeKeepsCommitted(s, h, st, args);
    ConflictAboveCommit(s, h, st, args);
    NoRollback(st, args, diskOk);
  }

  lemma NoRollback(st: NodeState, args: AppendArgs, diskOk: bool)
    requires Ok(st) && st.currentTerm <= args.term && args.prevLogIndex <= |st.log|
    requires args.prevLogIndex > 0 ==> TermAt(st.log, args.prevLogIndex) == args.prevLogTerm
    requires diskOk || Missing(st.log, args.prevLogIndex, args.entries) == []
    requires st.commitIndex <= |Merged(st.log, args.prevLogIndex, args.entries)|
    requires var k := MatchLength(st.log, args.prevLogIndex, args.entries);
             k < |args.entries| ==> st.commitIndex <= args.prevLogIndex + k
    ensures HandleAppendEntries(st, args, diskOk) == (Accepted(st, args), AppendReply(st.currentTerm, true))
  {
    var log := Merged(st.log, args.prevLogIndex, args.entries);
    assert st.applied + Span(log, st.lastApplied, st.lastApplied) == st.applied;
  }

  // ---- the invariant after acceptance ----

  lemma ConfirmMoves(h: History, n: NodeId, t: nat, p: nat, h': History)
    requires h' == Confirm(h, Slot(n, t), p)
    ensures HistoryMoves(h, h', n, t)
  {
  }

  lemma AcceptLog(s: System, h: History, st: NodeState, args: AppendArgs, h': History)
    requires Acceptable(s, h, st, args) && Grows(h, h')
    requires st.commitIndex <= |Merged(st.log, args.prevLogIndex, args.entries)|
    ensures NodeLogOk(h', Accepted(st, args))
  {
    var r := h.reigns[args.term];
    AcceptableFits(s, h, st, args);
    MergedSound(h, st.log, r.log, args.prevLogIndex, args.entries);
    SoundGrows(h, h', Merged(st.log, args.prevLogIndex, args.entries));
    ReignTerms(h, args.term);
    MergedTerms(h, st.log, r.log, args.prevLogIndex, args.entries, args.term + 1);
  }

  lemma MergedSound(h: History, log: seq<Entry>, r: seq<Entry>, prev: nat, es: seq<Entry>)
    requires Fits(h, log, r, prev, es)
    ensures Sound(h, Merged(log, prev, es))
  {
    MergeIsPrefix(h, log, r, prev, es);
    SoundPrefix(h, r, prev + |es|);
  }

  lemma MergedTerms(h: History, log: seq<Entry>, r: seq<Entry>, prev: nat, es: seq<Entry>, bound: nat)
    requires Fits(h, log, r, prev, es) && TermsBelow(log, bound) && TermsBelow(r, bound)
    ensures TermsBelow(Merged(log, prev, es), bound)
  {
    MergeIsPrefix(h, log, r, prev, es);
  }

  lemma ReignTerms(h: History, t: nat)
    requires t in h.reigns && ReignOk(h, t)
    ensures TermsBelow(h.reigns[t].log, t + 1)
  {
    var r := h.reigns[t];
    assert forall i :: 0 <= i < |r.start| ==> r.start[i] == r.log[i];
  }

  lemma AcceptCommit(s: System, h: History, st: NodeState, args: AppendArgs)
    requires Acceptable(s, h, st, args) && NodeCommitOk(s, h, st)
    requires st.commitIndex <= |Merged(st.log, args.prevLogIndex, args.entries)|
    ensures Ok(Accepted(st, args)) && NodeCommitOk(s, h, Accepted(st, args))
  {
    var st' := Accepted(st, args);
    MergeKeepsCommitted(s, h, st, args);
    AcceptedPrefix(s, h, st, args);
    AcceptedApplied(st, args);
    if st'.wal.Some? {
      AcceptableFits(s, h, st, args);
      var recs := Missing(st.log, args.prevLogIndex, args.entries);
      RebuildConcat([], st.wal.value, recs);
      MissingRebuilds(h, st.log, h.reigns[args.term].log, args.prevLogIndex, args.entries);
    }
  }

  lemma AcceptedPrefix(s: System, h: History, st: NodeState, args: AppendArgs)
    requires Ok(st) && st.currentTerm <= args.term && args.prevLogIndex <= |st.log| && AppendArgsOk(s, h, args)
    requires CommittedBy(s, h, st.log[..st.commitIndex], st.currentTerm)
    requires var log := Merged(st.log, args.prevLogIndex, args.entries);
             && st.commitIndex <= |log| && log[..st.commitIndex] == st.log[..st.commitIndex]
             && h.reigns[args.term].log[..args.prevLogIndex + |args.entries|] <= log
    ensures Accepted(st, args).commitIndex <= |Accepted(st, args).log|
    ensures CommittedBy(s, h, Accepted(st, args).log[..Accepted(st, args).commitIndex], args.term)
  {
    var log := Merged(st.log, args.prevLogIndex, args.entries);
    if args.leaderCommit > st.commitIndex {
      TakePrefix(h.reigns[args.term].log, args.prevLogIndex + |args.entries|, log, args.leaderCommit);
    } else {
      LaterBound(s, h, st.log[..st.commitIndex], st.currentTerm, args.term);
    }
  }

  lemma LaterBound(s: System, h: History, p: seq<Entry>, b: nat, b': nat)
    requires CommittedBy(s, h, p, b) && b <= b'
    ensures CommittedBy(s, h, p, b')
  {
    SameHistory(h, 0, 0);
    CommittedGrows(s, s, h, h, p, b, b');
  }

  lemma TakePrefix(r: seq<Entry>, p: nat, log: seq<Entry>, c: nat)
    requires p <= |r| && r[..p] <= log && c <= p
    ensures c <= |log| && log[..c] == r[..c]
  {
    assert r[..p][..c] == r[..c];
  }

  lemma AcceptedApplied(st: NodeState, args: AppendArgs)
    requires Ok(st) && args.prevLogIndex <= |st.log| && st.applied == Span(st.log, 0, st.lastApplied)
    requires var log := Merged(st.log, args.prevLogIndex, args.entries);
             st.commitIndex <= |log| && log[..st.commitIndex] == st.log[..st.commitIndex]
    ensures var st' := Accepted(st, args);
            st'.lastApplied <= |st'.log| && st'.applied == Span(st'.log, 0, st'.lastApplied)
  {
    var st' := Accepted(st, args);
    var c := st.commitIndex;
    forall i | 0 <= i < c ensures st.log[i] == st'.log[i] {
      assert st.log[..c][i] == st'.log[..c][i];
    }
  }

  // ---- confirmed prefixes ----

  /** A prefix that both the follower and the leader have survives the merge. */
  lemma MergeKeepsPrefix(h: History, log: seq<Entry>, r: seq<Entry>, prev: nat, es: seq<Entry>, p: seq<Entry>)
    requires Fits(h, log, r, prev, es) && p <= log && p <= r
    ensures p <= Merged(log, prev, es)
  {
    var k := MatchLength(log, prev, es);
    MergeIsPrefix(h, log, r, prev, es);
    if k < |es| {
      AtSlice(r, prev, es, k);
      SpliceKeepsPrefix(log, r, prev + k, prev + |es|, p);
    }
  }

  lemma SpliceKeepsPrefix(log: seq<Entry>, r: seq<Entry>, i: nat, end: nat, p: seq<Entry>)
    requires i <= |log| && i < end <= |r| && p <= log && p <= r && (i < |log| ==> log[i].term != r[i].term)
    ensures p <= r[..end]
  {
    assert |p| <= i;
  }

  lemma AcceptNodeKeeps(s: System, h: History, h': History, st: NodeState, st': NodeState, args: AppendArgs, t: nat)
    requires Acceptable(s, h, st, args) && AcksOk(s, h) && ReignsInv(s, h)
    requires st'.id == st.id && st'.currentTerm == args.term && st'.log == Merged(st.log, args.prevLogIndex, args.entries)
    requires h' == Confirm(h, Slot(st.id, args.term), Covered(args)) && Slot(st.id, t) in h'.acks
    requires Slot(st.id, t) in h.acks ==> AckOk(s, h, Slot(st.id, t)) && NodeKeeps(h, st, t)
    requires t <= args.term
    ensures t in h'.reigns && h'.acks[Slot(st.id, t)] <= |h'.reigns[t].log| && NodeKeeps(h', st', t)
  {
    forall i | 0 <= i <= h'.acks[Slot(st.id, t)] && Survives(h', t, i, st'.currentTerm)
      ensures h'.reigns[t].log[..i] <= st'.log
    {
      if t == args.term && i <= args.prevLogIndex + |args.entries| {
        KeepsNew(s, h, st, args, i);
      } else {
        KeepsOld(s, h, h', st, args, t, i);
      }
    }
  }

  /** What the request covers is in the follower's log now. */
  lemma KeepsNew(s: System, h: History, st: NodeState, args: AppendArgs, i: nat)
    requires Acceptable(s, h, st, args) && i <= args.prevLogIndex + |args.entries|
    ensures h.reigns[args.term].log[..i] <= Merged(st.log, args.prevLogIndex, args.entries)
  {
    AcceptableFits(s, h, st, args);
    MergeIsPrefix(h, st.log, h.reigns[args.term].log, args.prevLogIndex, args.entries);
    Prefixes(h.reigns[args.term].log[..i], h.reigns[args.term].log, args.prevLogIndex + |args.entries|,
             Merged(st.log, args.prevLogIndex, args.entries));
  }

  /** What was confirmed before is still there. */
  lemma KeepsOld(s: System, h: History, h': History, st: NodeState, args: AppendArgs, t: nat, i: nat)
    requires Acceptable(s, h, st, args) && ReignsInv(s, h) && h'.reigns == h.reigns && t <= args.term
    requires t in h.reigns && Slot(st.id, t) in h.acks && i <= h.acks[Slot(st.id, t)] <= |h.reigns[t].log|
    requires NodeKeeps(h, st, t) && Survives(h', t, i, args.term)
    ensures h.reigns[t].log[..i] <= Merged(st.log, args.prevLogIndex, args.entries)
  {
    SurvivesEarlier(h, h', t, i, st.currentTerm, args.term);
    StartInLog(s, h, args.term);
    AcceptableFits(s, h, st, args);
    MergeKeepsPrefix(h, st.log, h.reigns[args.term].log, args.prevLogIndex, args.entries, h.reigns[t].log[..i]);
  }

  lemma SurvivesEarlier(h: History, h': History, t: nat, i: nat, c: nat, u: nat)
    requires h'.reigns == h.reigns && t in h.reigns && i <= |h.reigns[t].log| && c <= u && Survives(h', t, i, u)
    ensures Survives(h, t, i, c)
    ensures t < u && u in h.reigns ==> h.reigns[t].log[..i] <= h.reigns[u].start
  {
  }
}
