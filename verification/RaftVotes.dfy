/** Who gets a vote. Safety alone would be served by a node that never votes; these are the votes a candidate can count
    on. */
module RaftVotes {
  import opened Options
  import opened RaftTypes
  import opened RaftSpec
  import opened RaftSystem
  import opened RaftHistory
  import opened RaftCompleteness
  import opened RaftCampaign
  import opened RaftTheorems

  /** The log `a` is at least as up to date as `b`. */
  predicate Ahead(a: seq<Entry>, b: seq<Entry>) {
    UpToDate(LastTerm(a), |a|, b)
  }

  lemma AheadIsTotal(a: seq<Entry>, b: seq<Entry>)
    ensures Ahead(a, b) || Ahead(b, a)
  {
  }

  lemma AheadIsTransitive(a: seq<Entry>, b: seq<Entry>, c: seq<Entry>)
    requires Ahead(a, b) && Ahead(b, c)
    ensures Ahead(a, c)
  {
  }

  function VoteRequestOf(st: NodeState, term: nat): VoteArgs {
    VoteArgs(term, st.id, |st.log|, LastTerm(st.log))
  }

  /** The node has not voted for anybody else in this term, which is not behind its own. */
  predicate FreeFor(st: NodeState, term: nat, candidate: NodeId) {
    st.currentTerm < term || (st.currentTerm == term && (st.votedFor.None? || st.votedFor == Some(candidate)))
  }

  lemma FreeGrants(st: NodeState, args: VoteArgs, log: seq<Entry>)
    requires Ok(st) && FreeFor(st, args.term, args.candidate) && Ahead(log, st.log)
    requires args.lastLogIndex == |log| && args.lastLogTerm == LastTerm(log)
    ensures HandleRequestVote(st, args).1.granted
  {
  }

  /** Of any two nodes that are free to vote for one another in a term, at least one grants the other its vote. */
  lemma OneOfTwoGrants(a: NodeState, b: NodeState, term: nat)
    requires Ok(a) && Ok(b) && FreeFor(a, term, b.id) && FreeFor(b, term, a.id)
    ensures HandleRequestVote(a, VoteRequestOf(b, term)).1.granted || HandleRequestVote(b, VoteRequestOf(a, term)).1.granted
  {
    AheadIsTotal(a.log, b.log);
    if Ahead(a.log, b.log) {
      FreeGrants(b, VoteRequestOf(a, term), a.log);
    } else {
      FreeGrants(a, VoteRequestOf(b, term), b.log);
    }
  }

  /** A log that extends another one, both of them sound, is at least as up to date. */
  lemma LongerIsAhead(s: System, h: History, log: seq<Entry>, longer: seq<Entry>)
    requires ReignsInv(s, h) && Sound(h, longer) && log <= longer
    ensures Ahead(longer, log)
  {
    if log != [] {
      LastReign(h, longer);
      assert ReignOk(h, LastTerm(longer));
      LastTermIsGreatest(h, longer, |log| - 1);
      assert longer[|log| - 1] == log[|log| - 1];
    }
  }

  /** In every reachable state a node grants its vote to every candidate, of any moment, whose log has its own log as a
      prefix, unless the term is behind or its ballot in that term went to somebody else. */
  lemma PrefixIsGranted(servers: set<NodeId>, run: seq<Action>, n: NodeId, i: nat, m: NodeId, args: VoteArgs)
    requires n in servers && m in servers && i <= |run|
    requires var st, log := Exec(servers, run).nodes[n], NodeAt(servers, run, i, m).log;
             && st.log <= log && args.lastLogIndex == |log| && args.lastLogTerm == LastTerm(log)
             && st.currentTerm <= args.term
    requires var k, h := Slot(n, args.term), HistoryOf(servers, run);
             k in h.ballots ==> h.ballots[k].candidate == args.candidate
    ensures HandleRequestVote(Exec(servers, run).nodes[n], args).1.granted
  {
    RunKeeps(servers, run);
    MomentSound(servers, run, i, m);
    var s, h, log := Exec(servers, run), HistoryOf(servers, run), NodeAt(servers, run, i, m).log;
    LongerIsAhead(s, h, s.nodes[n].log, log);
    BallotIsVote(s, h, n, args);
    FreeGrants(s.nodes[n], args, log);
  }

  lemma BallotIsVote(s: System, h: History, n: NodeId, args: VoteArgs)
    requires AllOk(s) && VotesInv(s, h) && n in s.nodes && s.nodes[n].currentTerm <= args.term
    requires Slot(n, args.term) in h.ballots ==> h.ballots[Slot(n, args.term)].candidate == args.candidate
    ensures FreeFor(s.nodes[n], args.term, args.candidate)
  {
    assert NodeVoteOk(h, s.nodes[n]);
  }
}
