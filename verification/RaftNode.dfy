/** The Raft node as an object. Every method is proved to compute the corresponding function of RaftSpec on the
    node's state with the uncompacted log, whatever has been compacted away meanwhile. The durability of a write
    and the success of a snapshot are inputs. */
module RaftNode {
  import opened Options
  import opened RaftTypes
  import S = RaftSpec
  import opened RaftLog

  datatype SnapshotArgs = SnapshotArgs(term: nat, leaderId: NodeId, lastIncludedIndex: nat, lastIncludedTerm: nat)

  class Node {
    const id: NodeId
    const peers: set<NodeId>
    const log: Log
    const snapshotThreshold: nat
    var role: Role
    var currentTerm: nat
    var votedFor: Option<NodeId>
    var commitIndex: nat
    var lastApplied: nat
    var nextIndex: map<NodeId, nat>
    var matchIndex: map<NodeId, nat>
    var campaigning: bool
    var elections: map<nat, set<NodeId>>
    var applied: seq<Applied>
    var wal: Option<seq<WalRecord>>

    /** The state as the specification sees it. */
    ghost function Abs(): NodeState
      requires log.Valid()
      reads this, log
    {
      NodeState(id, peers, role, currentTerm, votedFor, log.Full(), commitIndex, lastApplied,
                nextIndex, matchIndex, campaigning, elections, applied, wal)
    }

    /** Between handlers: base <= lastApplied == commitIndex <= lastIndex. */
    ghost predicate Valid()
      reads this, log
    {
      log.Valid() && log.base <= lastApplied && S.Ok(Abs())
    }

    constructor (n: NodeId, others: set<NodeId>, threshold: nat)
      requires n !in others
      ensures Valid() && fresh(log)
      ensures Abs() == NodeState(n, others, Follower, 0, None, [], 0, 0, map[], map[], false, map[], [], Some([]))
    {
      id, peers, snapshotThreshold := n, others, threshold;
      log := new Log();
      role, currentTerm, votedFor, commitIndex, lastApplied := Follower, 0, None, 0, 0;
      nextIndex, matchIndex, campaigning, elections := map[], map[], false, map[];
      applied, wal := [], Some([]);
    }

    // ---- elections ----

    method BecomeCandidate() returns (ok: bool)
      requires Valid()
      modifies this
      ensures Valid() && Abs() == S.BecomeCandidate(old(Abs())) && ok == !old(role).Leader?
    {
      if role == Leader { return false; }
      role := Candidate;
      currentTerm := currentTerm + 1;
      votedFor := Some(id);
      campaigning := true;
      return true;
    }

    method StartElection() returns (args: VoteArgs)
      requires Valid()
      modifies this
      ensures Valid() && (Abs(), args) == S.StartElection(old(Abs()))
    {
      args := VoteArgs(currentTerm, id, log.LastIndex(), log.LastTerm());
      elections := elections[currentTerm := {id}];
      campaigning := false;
    }

    method StepDown(term: nat)
      requires Valid()
      modifies this
      ensures Valid() && Abs() == S.StepDown(old(Abs()), term)
    {
      currentTerm := term;
      role := Follower;
      votedFor := None;
    }

    method HandleRequestVote(args: VoteArgs) returns (reply: VoteReply)
      requires Valid()
      modifies this
      ensures Valid() && (Abs(), reply) == S.HandleRequestVote(old(Abs()), args)
    {
      reply := VoteReply(currentTerm, false);
      if args.term < currentTerm { return; }
      if args.term > currentTerm {
        currentTerm := args.term;
        votedFor := None;
        role := Follower;
      }
      var lastLogIndex, lastLogTerm := log.LastIndex(), log.LastTerm();
      var upToDate := args.lastLogTerm > lastLogTerm
                      || (args.lastLogTerm == lastLogTerm && args.lastLogIndex >= lastLogIndex);
      if (votedFor.None? || votedFor.value == args.candidate) && upToDate {
        votedFor := Some(args.candidate);
        reply := reply.(granted := true);
      }
    }

    method OnVoteReply(from: NodeId, args: VoteArgs, reply: VoteReply)
      requires Valid()
      modifies this
      ensures Valid() && Abs() == S.OnVoteReply(old(Abs()), from, args, reply)
    {
      if reply.term > currentTerm {
        StepDown(reply.term);
        return;
      }
      var stillCandidate := role == Candidate && currentTerm == args.term;
      if !stillCandidate || !reply.granted || args.term !in elections { return; }
      elections := elections[args.term := elections[args.term] + {from}];
    }

    // ---- commit and apply ----

    /** Takes a snapshot and drops the applied prefix once the log has grown past the threshold. */
    method MaybeCompact()
      requires log.Valid() && log.base <= lastApplied <= log.LastIndex()
      modifies log
      ensures log.Valid() && log.base <= lastApplied && log.Full() == old(log.Full())
    {
      if snapshotThreshold == 0 || log.LastIndex() - log.base < snapshotThreshold { return; }
      var idx := lastApplied;
      if idx <= log.base { return; }
      if * { return; } // the snapshot could not be taken or saved
      log.Compact(idx, log.TermAt(idx));
    }

    method ApplyCommitted()
      requires log.Valid() && log.base <= lastApplied && commitIndex <= log.LastIndex()
      modifies this`lastApplied, this`applied, log
      ensures log.Valid() && Abs() == S.ApplyCommitted(old(Abs()))
      ensures old(lastApplied) <= lastApplied && log.base <= lastApplied
    {
      ghost var start, full := lastApplied, log.Full();
      while lastApplied < commitIndex
        invariant start <= lastApplied && log.Valid() && log.base <= lastApplied && log.Full() == full
        invariant commitIndex <= |full| && (start < commitIndex ==> lastApplied <= commitIndex)
        invariant start >= commitIndex ==> lastApplied == start && applied == old(applied)
        invariant start < commitIndex ==> applied == old(applied) + S.Span(full, start, lastApplied)
      {
        lastApplied := lastApplied + 1;
        var e := log.EntryAt(lastApplied);
        applied := applied + [Applied(lastApplied, e)];
        assert S.Span(full, start, lastApplied) == S.Span(full, start, lastApplied - 1) + [Applied(lastApplied, e)];
        if e.command.Some? {
          MaybeCompact();
        }
      }
    }

    /** How many servers, this one included, hold the log up to `idx`. */
    method CountHolders(idx: nat) returns (count: nat)
      requires log.Valid()
      ensures count == S.Holders(Abs(), idx)
    {
      count := 1;
      var todo := matchIndex.Keys;
      ghost var reached: set<NodeId> := {};
      while todo != {}
        invariant todo <= matchIndex.Keys && count == 1 + |reached|
        invariant forall p :: p in reached <==> p in matchIndex && p !in todo && matchIndex[p] >= idx
        decreases |todo|
      {
        var p :| p in todo;
        todo := todo - {p};
        if matchIndex[p] >= idx {
          count, reached := count + 1, reached + {p};
        }
      }
      assert S.Reached(Abs(), idx) == reached;
    }

    /** The commit scan: the index to commit, at least the current one. */
    method ScanCommit() returns (c: nat)
      requires Valid()
      ensures c == S.Advance(Abs(), commitIndex + 1, commitIndex)
    {
      c := commitIndex;
      var n := commitIndex + 1;
      while n <= log.LastIndex()
        invariant commitIndex <= c < n <= log.LastIndex() + 1
        invariant S.Advance(Abs(), n, c) == S.Advance(Abs(), commitIndex + 1, commitIndex)
        decreases log.LastIndex() + 1 - n
      {
        if log.TermAt(n) == currentTerm {
          var count := CountHolders(n);
          if count < (|peers| + 1) / 2 + 1 { break; }
          c := n;
        }
        n := n + 1;
      }
    }

    method UpdateCommitIndex()
      requires Valid()
      modifies this`commitIndex, this`lastApplied, this`applied, log
      ensures Valid() && Abs() == S.UpdateCommitIndex(old(Abs()))
    {
      commitIndex := ScanCommit();
      ApplyCommitted();
    }

    // ---- the leader ----

    /** Writes one record, or loses track of the durable log. */
    method PersistEntry(idx: nat, e: Entry, diskOk: bool)
      modifies this`wal
      ensures wal == if diskOk then S.Persist(old(wal), [S.Encode(idx, e)]) else None
    {
      if !diskOk { wal := None; return; }
      match wal
      case None =>
      case Some(w) => wal := Some(w + [S.Encode(idx, e)]);
    }

    method AppendLocal(e: Entry)
      requires Valid()
      modifies this, log
      ensures Valid() && Abs() == S.AppendLocal(old(Abs()), e)
    {
      PersistEntry(log.LastIndex() + 1, e, true);
      log.Append(e);
      UpdateCommitIndex();
    }

    /** Takes the lead, with fresh progress for every peer. */
    method Crown()
      requires Valid()
      modifies this`role, this`nextIndex, this`matchIndex
      ensures Valid() && Abs() == S.Crowned(old(Abs()))
    {
      role := Leader;
      nextIndex := nextIndex + map p | p in peers :: log.LastIndex() + 1;
      matchIndex := matchIndex + map p | p in peers :: 0;
      assert Abs() == S.Crowned(old(Abs()));
    }

    method TryBecomeLeader(term: nat, diskOk: bool)
      requires Valid()
      modifies this, log
      ensures Valid() && Abs() == S.TryBecomeLeader(old(Abs()), term, diskOk)
    {
      if role != Candidate || currentTerm != term { return; }
      if !diskOk {
        wal := None;
        return;
      }
      Crown();
      AppendLocal(Entry(term, None));
    }

    method Propose(command: string, diskOk: bool) returns (idx: Option<nat>)
      requires Valid()
      modifies this, log
      ensures Valid() && Abs() == S.Propose(old(Abs()), command, diskOk)
      ensures idx == if old(role).Leader? && diskOk then Some(|old(log.Full())| + 1) else None
    {
      if role != Leader { return None; }
      if !diskOk {
        wal := None;
        return None;
      }
      idx := Some(log.LastIndex() + 1);
      AppendLocal(Entry(currentTerm, Some(command)));
    }

    /** The request for a peer, or `None` when the peer needs entries that are compacted away. */
    method ReplicateTo(peer: NodeId) returns (args: Option<AppendArgs>)
      requires Valid() && role == Leader && peer in peers && nextIndex[peer] <= log.LastIndex() + 1
      ensures args == if nextIndex[peer] <= log.base then None else Some(S.Replicate(Abs(), peer))
    {
      var next := nextIndex[peer];
      if next <= log.base { return None; }
      args := Some(AppendArgs(currentTerm, id, next - 1, log.TermAt(next - 1), log.Slice(next), commitIndex));
    }

    method Track(from: NodeId, newMatch: nat)
      requires Valid() && role == Leader && from in peers
      modifies this`matchIndex, this`nextIndex
      ensures Valid() && Abs() == S.Track(old(Abs()), from, newMatch)
    {
      if newMatch > matchIndex[from] {
        matchIndex := matchIndex[from := newMatch];
        nextIndex := nextIndex[from := newMatch + 1];
      }
    }

    method OnAppendReply(from: NodeId, args: AppendArgs, reply: AppendReply)
      requires Valid() && from in peers
      modifies this, log
      ensures Valid() && Abs() == S.OnAppendReply(old(Abs()), from, args, reply)
    {
      if reply.term > currentTerm {
        StepDown(reply.term);
        return;
      }
      if role != Leader || reply.term < currentTerm { return; }
      if reply.success {
        Track(from, args.prevLogIndex + |args.entries|);
        UpdateCommitIndex();
        return;
      }
      if nextIndex[from] > 1 {
        nextIndex := nextIndex[from := nextIndex[from] - 1];
      }
    }

    // ---- the follower ----

    /** Persists every entry that the log does not hold at its index with the same term. */
    method PersistMissing(prev: nat, es: seq<Entry>, diskOk: bool) returns (ok: bool)
      requires log.Valid() && log.base <= prev <= log.LastIndex()
      modifies this`wal
      ensures ok == (diskOk || S.Missing(log.Full(), prev, es) == [])
      ensures wal == if ok then S.Persist(old(wal), S.Missing(log.Full(), prev, es)) else None
    {
      ghost var full := log.Full();
      var i := 0;
      ghost var todo := S.Missing(full, prev, es);
      while i < |es|
        invariant 0 <= i <= |es|
        invariant diskOk ==> S.Persist(wal, S.Missing(full, prev + i, es[i..])) == S.Persist(old(wal), todo)
        invariant !diskOk ==> wal == old(wal) && S.Missing(full, prev + i, es[i..]) == todo
      {
        var idx := prev + 1 + i;
        assert es[i..][1..] == es[i + 1..] && es[i..][0] == es[i];
        if idx <= log.LastIndex() && log.TermAt(idx) == es[i].term {
          assert S.Missing(full, prev + i, es[i..]) == S.Missing(full, prev + i + 1, es[i + 1..]);
        } else {
          ghost var rest := S.Missing(full, prev + i + 1, es[i + 1..]);
          assert S.Missing(full, prev + i, es[i..]) == [S.Encode(idx, es[i])] + rest;
          PersistLaw(wal, [S.Encode(idx, es[i])], rest);
          PersistEntry(idx, es[i], diskOk);
          if !diskOk { return false; }
        }
        i := i + 1;
      }
      assert es[i..] == [] && S.Missing(full, prev + i, es[i..]) == [];
      PersistNothing(wal);
      PersistNothing(old(wal));
      return true;
    }

    /** One entry of the merge loop: keep it, replace a conflicting tail by it, or append it. */
    method MergeEntry(idx: nat, e: Entry)
      requires log.Valid() && log.base < idx <= log.LastIndex() + 1 && log.base <= lastApplied
      modifies this`lastApplied, this`commitIndex, log
      ensures log.Valid() && log.base == old(log.base) && log.base <= lastApplied
      ensures var full := old(log.Full());
              log.Full() == if idx <= |full| && full[idx - 1].term == e.term then full else full[..idx - 1] + [e]
      ensures var rolled := idx <= |old(log.Full())| && old(log.Full())[idx - 1].term != e.term;
              && lastApplied == (if rolled then S.Min(old(lastApplied), idx - 1) else old(lastApplied))
              && commitIndex == (if rolled then S.Min(old(commitIndex), idx - 1) else old(commitIndex))
    {
      if idx <= log.LastIndex() {
        if log.TermAt(idx) != e.term {
          log.Truncate(idx);
          log.Append(e);
          if idx <= lastApplied {
            lastApplied := idx - 1;
          }
          if commitIndex >= idx {
            commitIndex := idx - 1;
          }
        }
      } else {
        log.Append(e);
      }
    }

    /** The merge loop. */
    method MergeLoop(prev: nat, es: seq<Entry>)
      requires log.Valid() && log.base <= prev <= log.LastIndex() && log.base <= lastApplied
      modifies this`lastApplied, this`commitIndex, log
      ensures log.Valid() && log.base == old(log.base) && log.base <= lastApplied
      ensures var k := S.MatchLength(old(log.Full()), prev, es);
              && log.Full() == MergedTo(old(log.Full()), prev, es, k, |es|)
              && lastApplied == RolledTo(old(lastApplied), old(log.Full()), prev, k, |es|)
              && commitIndex == RolledTo(old(commitIndex), old(log.Full()), prev, k, |es|)
    {
      ghost var full, a, c := log.Full(), lastApplied, commitIndex;
      ghost var k := S.MatchLength(full, prev, es);
      var i := 0;
      while i < |es|
        invariant 0 <= i <= |es| && log.Valid() && log.base == old(log.base) && log.base <= lastApplied
        invariant log.Full() == MergedTo(full, prev, es, k, i)
        invariant lastApplied == RolledTo(a, full, prev, k, i) && commitIndex == RolledTo(c, full, prev, k, i)
      {
        MergedStep(full, prev, es, k, i);
        MergeEntry(prev + 1 + i, es[i]);
        i := i + 1;
      }
    }

    /** The merge loop computes `MergeEntries`. */
    method MergeEntries(prev: nat, es: seq<Entry>)
      requires Valid() && role != Leader && log.base <= prev <= log.LastIndex()
      modifies this`lastApplied, this`commitIndex, log
      ensures log.Valid() && log.base == old(log.base) && log.base <= lastApplied
      ensures Abs() == S.MergeEntries(old(Abs()), prev, es)
    {
      MergedEnd(Abs(), prev, es);
      MergeLoop(prev, es);
    }

    /** Takes in the entries of a request that passed the checks. */
    method AcceptEntries(args: AppendArgs, diskOk: bool) returns (ok: bool)
      requires Valid() && role != Leader && log.base <= args.prevLogIndex <= log.LastIndex()
      modifies this, log
      ensures Valid() && (Abs(), ok) == Accepted(old(Abs()), args, diskOk)
    {
      ok := PersistMissing(args.prevLogIndex, args.entries, diskOk);
      if !ok { return; }
      MergeEntries(args.prevLogIndex, args.entries);
      if args.leaderCommit > commitIndex {
        commitIndex := S.Min(args.leaderCommit, log.LastIndex());
      }
      ApplyCommitted();
    }

    /** Handles AppendEntries. A request that reaches back before the compaction base is refused; any other request is
        answered, and changes the log, exactly as if nothing had been compacted. */
    method HandleAppendEntries(args: AppendArgs, diskOk: bool) returns (reply: AppendReply)
      requires Valid()
      modifies this, log
      ensures Valid()
      ensures args.term < old(currentTerm) || args.prevLogIndex >= old(log.base) ==>
                (Abs(), reply) == S.HandleAppendEntries(old(Abs()), args, diskOk)
      ensures args.term >= old(currentTerm) && args.prevLogIndex < old(log.base) ==>
                reply == AppendReply(old(currentTerm), false) && Abs() == Heard(old(Abs()), args)
    {
      HandleInTwoParts(Abs(), args, diskOk);
      reply := AppendReply(currentTerm, false);
      if args.term < currentTerm { return; }
      if args.term > currentTerm {
        currentTerm := args.term;
        votedFor := None;
      }
      role := Follower;
      assert Abs() == Heard(old(Abs()), args);
      if args.prevLogIndex > log.LastIndex() { return; }
      if args.prevLogIndex < log.base { return; }
      if args.prevLogIndex > 0 && log.TermAt(args.prevLogIndex) != args.prevLogTerm { return; }
      var ok := AcceptEntries(args, diskOk);
      reply := reply.(success := ok);
    }

    // ---- snapshots (index bookkeeping) ----

    /** Keeps the tail of the log after a snapshot that agrees with it, and discards the log otherwise. */
    method Rebase(i: nat, t: nat, ghost prefix: seq<Entry>)
      requires log.Valid() && log.base <= i && |prefix| == i && S.LastTerm(prefix) == t
      modifies log
      ensures log.Valid() && log.base == i
      ensures var full := old(log.Full());
              log.Full() == if i <= |full| && S.TermAt(full, i) == t then full else prefix
    {
      if i > log.LastIndex() || log.TermAt(i) != t {
        log.Reset(i, t, prefix);
      } else {
        log.Compact(i, t);
      }
    }

    /** Installs a snapshot of `prefix`, of which the node only learns the last index and term: everything up to it
        counts as committed and applied, and the log keeps the tail after it exactly when it agrees with it there.
        `installOk` tells whether the state machine could load the snapshot; if not, the reply still has the old term. */
    method HandleInstallSnapshot(args: SnapshotArgs, installOk: bool, ghost prefix: seq<Entry>) returns (replyTerm: nat)
      requires Valid() && |prefix| == args.lastIncludedIndex && S.LastTerm(prefix) == args.lastIncludedTerm
      modifies this, log
      ensures Valid() && log.base >= old(log.base) && commitIndex >= old(commitIndex)
      ensures args.term < old(currentTerm) ==> Abs() == old(Abs()) && replyTerm == old(currentTerm)
      ensures args.term >= old(currentTerm) ==>
                Abs() == old(Abs()).(role := Follower, currentTerm := args.term,
                                     votedFor := if args.term > old(currentTerm) then None else old(votedFor),
                                     log := log.Full(), commitIndex := commitIndex, lastApplied := lastApplied)
      ensures args.term >= old(currentTerm) && (args.lastIncludedIndex <= old(lastApplied) || !installOk) ==>
                && log.Full() == old(log.Full()) && log.base == old(log.base)
                && lastApplied == old(lastApplied) && commitIndex == old(commitIndex)
      ensures args.term >= old(currentTerm) ==>
                replyTerm == if args.lastIncludedIndex > old(lastApplied) && !installOk then old(currentTerm) else args.term
      ensures args.term >= old(currentTerm) && args.lastIncludedIndex > old(lastApplied) && installOk ==>
                && log.base == lastApplied == commitIndex == args.lastIncludedIndex
                && var full := old(log.Full()); var i := args.lastIncludedIndex;
                   log.Full() == if i <= |full| && S.TermAt(full, i) == args.lastIncludedTerm then full else prefix
    {
      replyTerm := currentTerm;
      if args.term < currentTerm { return; }
      if args.term > currentTerm {
        currentTerm := args.term;
        votedFor := None;
      }
      role := Follower;
      var i := args.lastIncludedIndex;
      if i <= lastApplied { return currentTerm; }
      if !installOk { return; }
      Rebase(i, args.lastIncludedTerm, prefix);
      if commitIndex < i {
        commitIndex := i;
      }
      lastApplied := i;
      replyTerm := currentTerm;
    }

    /** Replays one durable record into the log. */
    method ApplyRecoveredRecord(rec: WalRecord)
      requires log.Valid()
      modifies log
      ensures log.Valid() && log.base == old(log.base)
      ensures rec.index <= log.base ==> log.Full() == old(log.Full())
      ensures rec.index > log.base ==> log.Full() == S.SetEntry(old(log.Full()), rec)
    {
      if rec.index <= log.base { return; }
      log.Set(rec.index, S.Decode(rec));
    }
  }

  /** The log after the first `i` entries have been merged, `k` of which it holds already. */
  ghost function MergedTo(full: seq<Entry>, prev: nat, es: seq<Entry>, k: nat, i: nat): seq<Entry>
    requires prev + k <= |full| && k <= |es| && i <= |es|
  {
    if i <= k then full else full[..prev + k] + es[k..i]
  }

  /** Where a position `a` stands after the first `i` entries have been merged. */
  ghost function RolledTo(a: nat, full: seq<Entry>, prev: nat, k: nat, i: nat): nat {
    if i <= k || prev + k >= |full| then a else S.Min(a, prev + k)
  }

  lemma MergedStep(full: seq<Entry>, prev: nat, es: seq<Entry>, k: nat, i: nat)
    requires prev <= |full| && i < |es| && k == S.MatchLength(full, prev, es)
    ensures var m := MergedTo(full, prev, es, k, i);
            prev + i <= |m| && MergedTo(full, prev, es, k, i + 1) ==
              if prev + i < |m| && m[prev + i].term == es[i].term then m else m[..prev + i] + [es[i]]
    ensures var m := MergedTo(full, prev, es, k, i);
            forall a: nat :: RolledTo(a, full, prev, k, i + 1) ==
              if prev + i < |m| && m[prev + i].term != es[i].term then S.Min(RolledTo(a, full, prev, k, i), prev + i)
              else RolledTo(a, full, prev, k, i)
  {
    if i >= k {
      assert es[k..i + 1] == es[k..i] + [es[i]];
      assert full[..prev + k] + es[k..i + 1] == full[..prev + k] + es[k..i] + [es[i]];
    }
  }

  lemma MergedEnd(st: NodeState, prev: nat, es: seq<Entry>)
    requires S.Ok(st) && prev <= |st.log| && !st.role.Leader?
    ensures var k := S.MatchLength(st.log, prev, es);
            S.MergeEntries(st, prev, es) ==
            st.(log := MergedTo(st.log, prev, es, k, |es|),
                lastApplied := RolledTo(st.lastApplied, st.log, prev, k, |es|),
                commitIndex := RolledTo(st.commitIndex, st.log, prev, k, |es|))
  {
    MergedLog(st.log, prev, es);
  }

  lemma MergedLog(full: seq<Entry>, prev: nat, es: seq<Entry>)
    requires prev <= |full|
    ensures S.Merged(full, prev, es) == MergedTo(full, prev, es, S.MatchLength(full, prev, es), |es|)
  {
    var k := S.MatchLength(full, prev, es);
    assert es[k..|es|] == es[k..];
  }

  /** A node that has heard from the leader of a current term. */
  ghost function Heard(st: NodeState, args: AppendArgs): NodeState {
    st.(role := Follower, currentTerm := args.term,
        votedFor := if args.term > st.currentTerm then None else st.votedFor)
  }

  /** The second part of the specification of AppendEntries: persist, merge, advance the commit index, apply. */
  ghost function Accepted(st: NodeState, args: AppendArgs, diskOk: bool): (NodeState, bool)
    requires S.Ok(st) && args.prevLogIndex <= |st.log| && !st.role.Leader?
  {
    var missing := S.Missing(st.log, args.prevLogIndex, args.entries);
    if missing != [] && !diskOk then (st.(wal := None), false)
    else
      var st2 := S.MergeEntries(st.(wal := S.Persist(st.wal, missing)), args.prevLogIndex, args.entries);
      var c := if args.leaderCommit > st2.commitIndex then S.Min(args.leaderCommit, |st2.log|) else st2.commitIndex;
      (S.ApplyCommitted(st2.(commitIndex := c)), true)
  }

  lemma HandleInTwoParts(st: NodeState, args: AppendArgs, diskOk: bool)
    requires S.Ok(st)
    ensures S.HandleAppendEntries(st, args, diskOk) ==
            if args.term < st.currentTerm then (st, AppendReply(st.currentTerm, false))
            else if args.prevLogIndex > |st.log|
                    || (args.prevLogIndex > 0 && S.TermAt(st.log, args.prevLogIndex) != args.prevLogTerm)
            then (Heard(st, args), AppendReply(st.currentTerm, false))
            else var (st1, ok) := Accepted(Heard(st, args), args, diskOk); (st1, AppendReply(st.currentTerm, ok))
  {
  }

  lemma PersistLaw(wal: Option<seq<WalRecord>>, a: seq<WalRecord>, b: seq<WalRecord>)
    ensures S.Persist(S.Persist(wal, a), b) == S.Persist(wal, a + b)
  {
    if wal.Some? { assert wal.value + a + b == wal.value + (a + b); }
  }

  lemma PersistNothing(wal: Option<seq<WalRecord>>)
    ensures S.Persist(wal, []) == wal
  {
    if wal.Some? { assert wal.value + [] == wal.value; }
  }
}
