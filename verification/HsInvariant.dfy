/** What holds of every correct replica at all times, in terms of the history of votes. */
module HsInvariant {
  import opened Options
  import opened HsTypes
  import opened HsSpec
  import opened HsRecovery
  import opened HsDurable
  import opened HsHistory
  import opened HsOnce
  import opened HsSystem

  /** Every block of the tree stands on a certified parent, lower than itself, which it certifies, and carries the command
      of its identity. */
  predicate TreeOk(c: Config, byzantine: set<Id>, h: seq<Event>, r: Replica)
    requires c.members != {}
  {
    forall b :: b in r.blocks && !b.Genesis? ==>
      && Certified(c, byzantine, h, b.parent) && Height(b) > Height(b.parent)
      && r.blocks[b].justify.node == b.parent && r.blocks[b].cmd == b.cmd
  }

  /** The highest certificate and the lock. */
  predicate LockOk(c: Config, byzantine: set<Id>, h: seq<Event>, r: Replica)
    requires c.members != {}
  {
    && r.qcHigh.node in r.blocks && r.qcHigh.height == Height(r.qcHigh.node)
    && Certified(c, byzantine, h, r.qcHigh.node) && Certified(c, byzantine, h, r.bLock)
    && (!r.qcHigh.node.Genesis? ==> Height(r.bLock) >= Height(r.qcHigh.node.parent))
    && (r.bLock.Genesis? || Height(r.bLock) < Height(r.qcHigh.node))
  }

  /** The replica's own votes: below its lock and its durable vote height; those of the leader are for blocks of its
      tree. */
  predicate PastOk(c: Config, h: seq<Event>, r: Replica) {
    forall e :: e in h && e.voter == r.id ==>
      && Height(e.after) <= Height(r.bLock)
      && (if r.id == c.leader then e.block in r.blocks else Height(e.block) <= VotedUpTo(c, r.journal))
  }

  /** A correct leader knows all its proposals. */
  predicate LeaderOk(r: Replica, proposals: set<Block>) {
    forall p :: p in proposals ==> p.id in r.blocks
  }

  predicate ReplicaOk(c: Config, byzantine: set<Id>, s: System, r: Replica)
    requires c.members != {}
  {
    && Sound(r) && TreeOk(c, byzantine, s.history, r) && LockOk(c, byzantine, s.history, r) && PastOk(c, s.history, r)
    && (r.id == c.leader ==> LeaderOk(r, s.proposals))
  }

  /** The chains that were committed are direct chains below certified blocks. */
  predicate CommitsOk(c: Config, byzantine: set<Id>, s: System)
    requires c.members != {}
  {
    forall t :: t in s.commits ==>
      && !t.2.Genesis? && !t.1.Genesis? && !t.0.Genesis? && t.1 == t.2.parent && t.0 == t.1.parent
      && Certified(c, byzantine, s.history, t.2)
  }

  predicate AllTight(commits: seq<(BlockId, BlockId, BlockId)>) {
    forall t :: t in commits ==> Triple(t.0, t.1, t.2)
  }

  predicate Committed(s: System, b: BlockId) {
    b.Genesis? || exists i :: 0 <= i < |s.commits| && s.commits[i].0 == b
  }

  /** What a replica has committed is the branch below its committed block, and each command has run at most once and in
      order. */
  predicate ExecOk(s: System, r: Replica) {
    Committed(s, r.bExec) && r.committed == Path(r.bExec) && RunsOk(r.journal, r.bExec)
  }

  predicate NamedOk(c: Config, byzantine: set<Id>, s: System, r: Id)
    requires c.members != {} && r in s.replicas
  {
    s.replicas[r].id == r && ReplicaOk(c, byzantine, s, s.replicas[r])
  }

  predicate ReplicasOk(c: Config, byzantine: set<Id>, s: System)
    requires c.members != {}
  {
    s.replicas.Keys == c.members - byzantine && forall r :: r in s.replicas ==> NamedOk(c, byzantine, s, r)
  }

  /** Every committed block is the root or the first of a chain that was committed. */
  predicate HeadsOk(s: System) {
    forall r :: r in s.replicas ==> Committed(s, s.replicas[r].bExec)
  }

  predicate LogsOk(c: Config, s: System) {
    forall r :: r in s.replicas ==> Tracks(c, s.replicas[r])
  }

  predicate ExecsOk(s: System) {
    AllTight(s.commits) ==> forall r :: r in s.replicas ==> ExecOk(s, s.replicas[r])
  }

  predicate Inv(c: Config, byzantine: set<Id>, s: System) {
    && Setting(c, byzantine) && byzantine <= c.members && HistoryOk(c, byzantine, s.history)
    && ReplicasOk(c, byzantine, s) && CommitsOk(c, byzantine, s) && HeadsOk(s) && ExecsOk(s) && LogsOk(c, s)
  }

  /** Commits are never taken back and no committed block falls. */
  predicate Progress(s: System, s': System) {
    && s.replicas.Keys == s'.replicas.Keys && s.commits <= s'.commits
    && forall r :: r in s.replicas ==> Height(s.replicas[r].bExec) <= Height(s'.replicas[r].bExec)
  }

  predicate Goes(c: Config, byzantine: set<Id>, s: System, s': System) {
    Inv(c, byzantine, s') && Progress(s, s')
  }
}
