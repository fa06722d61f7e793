/** What each handler of the Raft node does to the node's state, as functions on values. The class in
    RaftNode runs the loops and is proved to compute these functions; the cluster in RaftSystem is
    built from them. */
module RaftSpec {
  import opened Options
  import opened RaftTypes

  /** Between two handlers everything committed has been applied and a leader tracks all its peers. */
  predicate Ok(st: NodeState) {
    && st.id !in st.peers
    && st.lastApplied == st.commitIndex <= |st.log|
    && st.matchIndex.Keys <= st.peers
    && st.nextIndex.Keys <= st.peers
    && (st.role.Leader? ==> forall p :: p in st.peers ==>
          p in st.matchIndex && p in st.nextIndex && st.nextIndex[p] >= 1)
  }

  /** `r` is a state the node `st` can move to: same identity, and again between handlers. */
  predicate Follows(st: NodeState, r: NodeState) {
    Ok(r) && r.id == st.id && r.peers == st.peers
  }

  function LastTerm(log: seq<Entry>): nat {
    if log == [] then 0 else log[|log| - 1].term
  }

  function TermAt(log: seq<Entry>, i: nat): nat
    requires i <= |log|
  {
    if i == 0 then 0 else log[i - 1].term
  }

  function Majority(st: NodeState): nat {
    (|st.peers| + 1) / 2 + 1
  }

  function Min(a: nat, b: nat): nat {
    if a <= b then a else b
  }

  // ---- the durable log ----

  function Encode(idx: nat, e: Entry): WalRecord {
    WalRecord(idx, e.term, match e.command case None => Noop case Some(c) => Data(c))
  }

  function Decode(rec: WalRecord): Entry {
    Entry(rec.term, match rec.op case Noop => None case Data(c) => Some(c))
  }

  function Persist(wal: Option<seq<WalRecord>>, recs: seq<WalRecord>): Option<seq<WalRecord>> {
    match wal case None => None case Some(w) => Some(w + recs)
  }

  /** `Log.set` on a log without compaction: a record at or before the end replaces the tail from its
      index on, any other record goes to the end; index 0 lies in the base and is ignored. */
  function SetEntry(log: seq<Entry>, rec: WalRecord): seq<Entry> {
    if rec.index == 0 then log
    else if rec.index <= |log| then log[..rec.index - 1] + [Decode(rec)]
    else log + [Decode(rec)]
  }

  /** The log rebuilt by replaying durable records in order onto `log`. */
  function Rebuild(log: seq<Entry>, recs: seq<WalRecord>): seq<Entry>
    decreases |recs|
  {
    if recs == [] then log else Rebuild(SetEntry(log, recs[0]), recs[1..])
  }

  // ---- elections ----

  function BecomeCandidate(st: NodeState): (r: NodeState)
    requires Ok(st)
    ensures Follows(st, r)
  {
    if st.role.Leader? then st
    else st.(role := Candidate, currentTerm := st.currentTerm + 1, votedFor := Some(st.id), campaigning := true)
  }

  /** The term is read again here: the node may have become a follower of a later term meanwhile. */
  function StartElection(st: NodeState): (r: (NodeState, VoteArgs))
    requires Ok(st)
    ensures Follows(st, r.0)
  {
    (st.(campaigning := false, elections := st.elections[st.currentTerm := {st.id}]),
     VoteArgs(st.currentTerm, st.id, |st.log|, LastTerm(st.log)))
  }

  function StepDown(st: NodeState, term: nat): (r: NodeState)
    requires Ok(st)
    ensures Follows(st, r)
  {
    st.(currentTerm := term, role := Follower, votedFor := None)
  }

  predicate UpToDate(lastTerm: nat, lastIndex: nat, log: seq<Entry>) {
    lastTerm > LastTerm(log) || (lastTerm == LastTerm(log) && lastIndex >= |log|)
  }

  function HandleRequestVote(st: NodeState, args: VoteArgs): (r: (NodeState, VoteReply))
    requires Ok(st)
    ensures Follows(st, r.0)
  {
    if args.term < st.currentTerm then (st, VoteReply(st.currentTerm, false))
    else
      var st1 := if args.term > st.currentTerm then StepDown(st, args.term) else st;
      if (st1.votedFor.None? || st1.votedFor.value == args.candidate)
         && UpToDate(args.lastLogTerm, args.lastLogIndex, st.log)
      then (st1.(votedFor := Some(args.candidate)), VoteReply(st.currentTerm, true))
      else (st1, VoteReply(st.currentTerm, false))
  }

  function OnVoteReply(st: NodeState, from: NodeId, args: VoteArgs, reply: VoteReply): (r: NodeState)
    requires Ok(st)
    ensures Follows(st, r)
  {
    if reply.term > st.currentTerm then StepDown(st, reply.term)
    else if st.role.Candidate? && st.currentTerm == args.term && reply.granted && args.term in st.elections
    then st.(elections := st.elections[args.term := st.elections[args.term] + {from}])
    else st
  }

  // ---- commit and apply ----

  function Reached(st: NodeState, idx: nat): set<NodeId> {
    set p | p in st.matchIndex && st.matchIndex[p] >= idx
  }

  /** Number of servers, this one included, known to hold the log up to `idx`. */
  function Holders(st: NodeState, idx: nat): nat {
    1 + |Reached(st, idx)|
  }

  predicate Committable(st: NodeState, idx: nat)
    requires 1 <= idx <= |st.log|
  {
    st.log[idx - 1].term == st.currentTerm && Holders(st, idx) >= Majority(st)
  }

  /** The commit scan from index `idx` on, `c` being the best index so far. */
  function Advance(st: NodeState, idx: nat, c: nat): (r: nat)
    requires 1 <= idx <= |st.log| + 1 && c < idx
    ensures c <= r <= |st.log|
    ensures r == c || (idx <= r && Committable(st, r))
    decreases |st.log| + 1 - idx
  {
    if idx > |st.log| then c
    else if st.log[idx - 1].term != st.currentTerm then Advance(st, idx + 1, c)
    else if Holders(st, idx) >= Majority(st) then Advance(st, idx + 1, idx)
    else c
  }

  /** The positions `a + 1 .. b` with the entries the log holds there. */
  function Span(log: seq<Entry>, a: nat, b: nat): (r: seq<Applied>)
    requires a <= b <= |log|
    ensures |r| == b - a && forall i :: 0 <= i < b - a ==> r[i] == Applied(a + i + 1, log[a + i])
  {
    seq(b - a, i requires 0 <= i < b - a => Applied(a + i + 1, log[a + i]))
  }

  function ApplyCommitted(st: NodeState): (r: NodeState)
    requires st.commitIndex <= |st.log|
    ensures r == st.(lastApplied := r.lastApplied, applied := r.applied) && st.applied <= r.applied
    ensures r.lastApplied >= r.commitIndex
  {
    if st.lastApplied < st.commitIndex
    then st.(lastApplied := st.commitIndex, applied := st.applied + Span(st.log, st.lastApplied, st.commitIndex))
    else st
  }

  function UpdateCommitIndex(st: NodeState): (r: NodeState)
    requires Ok(st)
    ensures Follows(st, r) && st.applied <= r.applied
  {
    ApplyCommitted(st.(commitIndex := Advance(st, st.commitIndex + 1, st.commitIndex)))
  }

  // ---- the leader ----

  function AppendLocal(st: NodeState, e: Entry): (r: NodeState)
    requires Ok(st)
    ensures Follows(st, r) && st.applied <= r.applied
  {
    UpdateCommitIndex(st.(log := st.log + [e], wal := Persist(st.wal, [Encode(|st.log| + 1, e)])))
  }

  /** A candidate as leader, before its no-op is appended. */
  function Crowned(st: NodeState): (r: NodeState)
    requires Ok(st)
    ensures Follows(st, r)
    ensures forall p :: p in st.peers ==>
              p in r.matchIndex && r.matchIndex[p] == 0 && p in r.nextIndex && r.nextIndex[p] == |st.log| + 1
  {
    st.(role := Leader,
        nextIndex := st.nextIndex + (map p | p in st.peers :: |st.log| + 1),
        matchIndex := st.matchIndex + (map p | p in st.peers :: 0))
  }

  function TryBecomeLeader(st: NodeState, term: nat, diskOk: bool): (r: NodeState)
    requires Ok(st)
    ensures Follows(st, r) && st.applied <= r.applied
  {
    if !st.role.Candidate? || st.currentTerm != term then st
    else if !diskOk then st.(wal := None)
    else
      AppendLocal(Crowned(st), Entry(term, None))
  }

  function Propose(st: NodeState, command: string, diskOk: bool): (r: NodeState)
    requires Ok(st)
    ensures Follows(st, r) && st.applied <= r.applied
  {
    if !st.role.Leader? then st
    else if !diskOk then st.(wal := None)
    else AppendLocal(st, Entry(st.currentTerm, Some(command)))
  }

  /** The request a leader sends to a peer: everything from the peer's next index to the end of the log. */
  function Replicate(st: NodeState, peer: NodeId): (r: AppendArgs)
    requires Ok(st) && st.role.Leader? && peer in st.peers && st.nextIndex[peer] <= |st.log| + 1
    ensures r.leaderCommit <= r.prevLogIndex + |r.entries| == |st.log|
  {
    var prev := st.nextIndex[peer] - 1;
    AppendArgs(st.currentTerm, st.id, prev, TermAt(st.log, prev), st.log[prev..], st.commitIndex)
  }

  /** A leader learns that a peer holds its log up to `m`. */
  function Track(st: NodeState, from: NodeId, m: nat): (r: NodeState)
    requires Ok(st) && st.role.Leader? && from in st.peers
    ensures Follows(st, r)
  {
    if m > st.matchIndex[from]
    then st.(matchIndex := st.matchIndex[from := m], nextIndex := st.nextIndex[from := m + 1])
    else st
  }

  function OnAppendReply(st: NodeState, from: NodeId, args: AppendArgs, reply: AppendReply): (r: NodeState)
    requires Ok(st) && from in st.peers
    ensures Follows(st, r) && st.applied <= r.applied
  {
    if reply.term > st.currentTerm then StepDown(st, reply.term)
    else if !st.role.Leader? || reply.term < st.currentTerm then st
    else if reply.success then
      UpdateCommitIndex(Track(st, from, args.prevLogIndex + |args.entries|))
    else if st.nextIndex[from] > 1 then st.(nextIndex := st.nextIndex[from := st.nextIndex[from] - 1])
    else st
  }

  // ---- the follower ----

  /** How many of the entries `es`, placed after index `prev`, the log already holds (by term). */
  function MatchLength(log: seq<Entry>, prev: nat, es: seq<Entry>): (k: nat)
    requires prev <= |log|
    ensures k <= |es| && prev + k <= |log|
    ensures forall i :: 0 <= i < k ==> log[prev + i].term == es[i].term
    ensures k < |es| && prev + k < |log| ==> log[prev + k].term != es[k].term
    decreases |es|
  {
    if es == [] || prev == |log| || log[prev].term != es[0].term then 0
    else
      var k := MatchLength(log, prev + 1, es[1..]);
      assert forall i :: 0 < i <= k ==> es[i] == es[1..][i - 1] && log[prev + i] == log[prev + 1 + (i - 1)];
      k + 1
  }

  /** The follower's log after the entries have been merged in. */
  function Merged(log: seq<Entry>, prev: nat, es: seq<Entry>): (r: seq<Entry>)
    requires prev <= |log|
    ensures prev + |es| <= |r|
  {
    var k := MatchLength(log, prev, es);
    if k == |es| then log else log[..prev + k] + es[k..]
  }

  /** The records a follower writes: every entry it does not hold at its index with the same term. */
  function Missing(log: seq<Entry>, prev: nat, es: seq<Entry>): seq<WalRecord>
    decreases |es|
  {
    if es == [] then []
    else
      (if prev < |log| && log[prev].term == es[0].term then [] else [Encode(prev + 1, es[0])])
      + Missing(log, prev + 1, es[1..])
  }

  /** Merging overwrites from the first conflict on and rolls both apply positions back to before it. */
  function MergeEntries(st: NodeState, prev: nat, es: seq<Entry>): (r: NodeState)
    requires Ok(st) && prev <= |st.log| && !st.role.Leader?
    ensures Follows(st, r)
  {
    var k := MatchLength(st.log, prev, es);
    if k < |es| && prev + k < |st.log|
    then st.(log := Merged(st.log, prev, es),
             lastApplied := Min(st.lastApplied, prev + k), commitIndex := Min(st.commitIndex, prev + k))
    else st.(log := Merged(st.log, prev, es))
  }

  function HandleAppendEntries(st: NodeState, args: AppendArgs, diskOk: bool): (r: (NodeState, AppendReply))
    requires Ok(st)
    ensures Follows(st, r.0)
  {
    var rejected := AppendReply(st.currentTerm, false);
    if args.term < st.currentTerm then (st, rejected)
    else
      var st1 := st.(role := Follower, currentTerm := args.term,
                     votedFor := if args.term > st.currentTerm then None else st.votedFor);
      if args.prevLogIndex > |st.log|
         || (args.prevLogIndex > 0 && TermAt(st.log, args.prevLogIndex) != args.prevLogTerm)
      then (st1, rejected)
      else
        var missing := Missing(st.log, args.prevLogIndex, args.entries);
        if missing != [] && !diskOk then (st1.(wal := None), rejected)
        else
          var st2 := MergeEntries(st1.(wal := Persist(st1.wal, missing)), args.prevLogIndex, args.entries);
          var c := if args.leaderCommit > st2.commitIndex then Min(args.leaderCommit, |st2.log|) else st2.commitIndex;
          (ApplyCommitted(st2.(commitIndex := c)), AppendReply(st.currentTerm, true))
  }
}
