/** The three kinds of steps, and the assembly of the invariant after each. */
module HsSteps {
  import opened Options
  import opened HsTypes
  import opened HsSpec
  import opened HsRecovery
  import opened HsDurable
  import opened HsOnce
  import opened HsQuorum
  import opened HsHistory
  import opened HsSystem
  import opened HsInvariant
  import opened HsSafety

  // ---- execution ----

  lemma {:induction false} ExtendsGenesis(b: BlockId)
    ensures Extends(b, Genesis)
    decreases b
  {
    if !b.Genesis? { ExtendsGenesis(b.parent); }
  }

  /** In a tree that holds all parents, the walk down from a block on the branch meets the committed block. */
  lemma {:induction false} SpanIsPath(r: Replica, b: BlockId, stop: BlockId)
    requires Sound(r) && b in r.blocks && Extends(b, stop)
    ensures Path(stop) + Span(r.blocks, b, stop) == Path(b)
    decreases b
  {
    if b == stop {
      assert Path(stop) + [] == Path(stop);
    } else {
      SpanIsPath(r, b.parent, stop);
      assert Path(stop) + (Span(r.blocks, b.parent, stop) + [b]) == Path(stop) + Span(r.blocks, b.parent, stop) + [b];
    }
  }

  /** A newly committed block extends the committed one. */
  lemma CommitExtends(c: Config, byzantine: set<Id>, s: System, h: seq<Event>, b: BlockId, top: BlockId)
    requires Setting(c, byzantine) && HistoryOk(c, byzantine, h) && AllTight(s.commits)
    requires forall t :: t in s.commits ==> Certified(c, byzantine, h, t.2)
    requires Committed(s, b) && Certified(c, byzantine, h, top) && !top.Genesis? && !top.parent.Genesis?
    requires Height(top.parent.parent) >= Height(b)
    ensures Extends(top.parent.parent, b)
  {
    if b.Genesis? {
      ExtendsGenesis(top.parent.parent);
    } else {
      CertifiedParent(c, byzantine, h, top);
      CertifiedParent(c, byzantine, h, top.parent);
      var i :| 0 <= i < |s.commits| && s.commits[i].0 == b;
      var t := s.commits[i];
      CertifiedExtends(c, byzantine, h, t.0, t.1, t.2, top.parent.parent);
    }
  }

  lemma ExecKeeps(c: Config, byzantine: set<Id>, s: System, s': System, r: Replica, r': Replica)
    requires Setting(c, byzantine) && HistoryOk(c, byzantine, s'.history) && CommitsOk(c, byzantine, s')
    requires ExecOk(s, r) && ExecMoves(r, r') && RunsMove(r, r') && Sound(r') && LockOk(c, byzantine, s'.history, r')
    requires s'.commits == if r'.bExec == r.bExec then s.commits else s.commits + [ChainBelow(r'.qcHigh.node)]
    requires AllTight(s'.commits) && r.bExec in r'.blocks
    ensures ExecOk(s', r')
  {
    assert forall i :: 0 <= i < |s.commits| ==> s'.commits[i] == s.commits[i];
    if r'.bExec != r.bExec {
      var top := r'.qcHigh.node;
      assert forall t :: t in s.commits ==> t in s'.commits;
      CommitExtends(c, byzantine, s, s'.history, r.bExec, top);
      SpanIsPath(r', r'.bExec, r.bExec);
      CommitRises(c, byzantine, s'.history, top);
      assert s'.commits[|s.commits|].0 == r'.bExec;
    }
  }

  lemma CommitRises(c: Config, byzantine: set<Id>, h: seq<Event>, top: BlockId)
    requires Setting(c, byzantine) && HistoryOk(c, byzantine, h) && Certified(c, byzantine, h, top)
    requires !top.Genesis? && !top.parent.Genesis?
    ensures Rising(top.parent.parent)
  {
    CertifiedParent(c, byzantine, h, top);
    CertifiedParent(c, byzantine, h, top.parent);
    CertifiedRises(c, byzantine, h, top.parent.parent);
  }

  // ---- assembly ----

  /** A step of one replica, as the rest of the system sees it. */
  predicate Moved(c: Config, s: System, s': System, r: Replica, r': Replica) {
    && r.id in s.replicas && s.replicas[r.id] == r && r'.id == r.id && s'.replicas == s.replicas[r.id := r']
    && s.history <= s'.history && (forall e :: e in s'.history ==> e in s.history || e.voter == r.id)
    && (s'.proposals == s.proposals || r.id == c.leader)
    && s'.commits == (if r'.bExec == r.bExec then s.commits else s.commits + [ChainBelow(r'.qcHigh.node)])
  }

  lemma OthersKeep(c: Config, byzantine: set<Id>, s: System, s': System, r: Replica, r': Replica, x: Id)
    requires c.members != {} && Moved(c, s, s', r, r') && x in s.replicas && x != r.id
    requires s.replicas[x].id == x && ReplicaOk(c, byzantine, s, s.replicas[x])
    ensures ReplicaOk(c, byzantine, s', s.replicas[x])
  {
    TreeGrows(c, byzantine, s.history, s'.history, s.replicas[x]);
    LockGrows(c, byzantine, s.history, s'.history, s.replicas[x]);
  }

  lemma CommitsKeep(c: Config, byzantine: set<Id>, s: System, s': System, r: Replica, r': Replica)
    requires c.members != {} && Moved(c, s, s', r, r') && CommitsOk(c, byzantine, s)
    requires ExecMoves(r, r') && LockOk(c, byzantine, s'.history, r')
    ensures CommitsOk(c, byzantine, s')
  {
    forall t | t in s'.commits
      ensures !t.2.Genesis? && !t.1.Genesis? && !t.0.Genesis? && t.1 == t.2.parent && t.0 == t.1.parent
              && Certified(c, byzantine, s'.history, t.2)
    {
      if t in s.commits { VotersGrow(c, byzantine, s.history, s'.history, t.2); }
    }
  }

  lemma EachKeeps(c: Config, byzantine: set<Id>, s: System, s': System, r: Replica, r': Replica, x: Id)
    requires c.members != {} && Moved(c, s, s', r, r') && x in s.replicas && ReplicaOk(c, byzantine, s', r')
    requires NamedOk(c, byzantine, s, x)
    ensures NamedOk(c, byzantine, s', x)
  {
    if x != r.id { OthersKeep(c, byzantine, s, s', r, r', x); }
  }

  lemma ReplicasKeep(c: Config, byzantine: set<Id>, s: System, s': System, r: Replica, r': Replica)
    requires c.members != {} && ReplicasOk(c, byzantine, s) && Moved(c, s, s', r, r') && ReplicaOk(c, byzantine, s', r')
    ensures ReplicasOk(c, byzantine, s')
  {
    forall x | x in s'.replicas ensures NamedOk(c, byzantine, s', x) {
      EachKeeps(c, byzantine, s, s', r, r', x);
    }
  }

  lemma ExecsKeep(c: Config, byzantine: set<Id>, s: System, s': System, r: Replica, r': Replica)
    requires Setting(c, byzantine) && HistoryOk(c, byzantine, s'.history) && CommitsOk(c, byzantine, s') && ExecsOk(s)
    requires Moved(c, s, s', r, r') && ExecMoves(r, r') && Sound(r') && LockOk(c, byzantine, s'.history, r')
    requires r.bExec in r'.blocks && RunsMove(r, r')
    ensures ExecsOk(s')
  {
    if AllTight(s'.commits) {
      assert AllTight(s.commits) by { assert forall t :: t in s.commits ==> t in s'.commits; }
      ExecKeeps(c, byzantine, s, s', r, r');
      assert forall i :: 0 <= i < |s.commits| ==> s'.commits[i] == s.commits[i];
    }
  }

  lemma HeadsKeep(c: Config, s: System, s': System, r: Replica, r': Replica)
    requires HeadsOk(s) && Moved(c, s, s', r, r') && ExecMoves(r, r')
    ensures HeadsOk(s')
  {
    assert forall i :: 0 <= i < |s.commits| ==> s'.commits[i] == s.commits[i];
    if r'.bExec != r.bExec { assert s'.commits[|s.commits|].0 == r'.bExec; }
  }

  lemma LogsKeep(c: Config, s: System, s': System, r: Replica, r': Replica)
    requires LogsOk(c, s) && Moved(c, s, s', r, r') && Tracks(c, r')
    ensures LogsOk(c, s')
  {
  }

  lemma Progresses(c: Config, s: System, s': System, r: Replica, r': Replica)
    requires Moved(c, s, s', r, r') && ExecMoves(r, r')
    ensures Progress(s, s')
  {
  }

  lemma Assemble(c: Config, byzantine: set<Id>, s: System, s': System, r: Replica, r': Replica)
    requires Inv(c, byzantine, s) && Moved(c, s, s', r, r') && HistoryOk(c, byzantine, s'.history)
    requires ReplicaOk(c, byzantine, s', r') && ExecMoves(r, r') && RunsMove(r, r') && r.bExec in r'.blocks
    requires Tracks(c, r')
    ensures Goes(c, byzantine, s, s')
  {
    HeadsKeep(c, s, s', r, r');
    LogsKeep(c, s, s', r, r');
    Progresses(c, s, s', r, r');
    ReplicasKeep(c, byzantine, s, s', r, r');
    CommitsKeep(c, byzantine, s, s', r, r');
    ExecsKeep(c, byzantine, s, s', r, r');
  }

  // ---- a proposal is delivered ----

  /** A correct leader never accepts a proposal: it knows all of its own. */
  lemma LeaderIgnores(c: Config, byzantine: set<Id>, s: System, p: Proposal, signed: bool, k: Keys)
    requires c.members != {} && ReplicasOk(c, byzantine, s) && c.leader in s.replicas
    requires signed ==> p.block in s.proposals
    ensures !Acceptable(c, k, s.replicas[c.leader], p, signed)
  {
  }

  /** The vote of a follower is a correct event. */
  lemma VoteIsOk(c: Config, byzantine: set<Id>, h: seq<Event>, r: Replica, p: Proposal, signed: bool, e: Event)
    requires Setting(c, byzantine) && HistoryOk(c, byzantine, h) && r.id in c.members && r.id !in byzantine
    requires Sound(r) && TreeOk(c, byzantine, h, r) && LockOk(c, byzantine, h, r) && PastOk(c, h, r) && r.id != c.leader
    requires Acceptable(c, KeysOf(byzantine, h), r, p, signed) && p.block.height > r.vHeight >= VotedUpTo(c, r.journal)
    requires var r1 := Accepted(c, byzantine, h, r, p.block);
             e == Event(r.id, p.block.id, r.bLock, r1.qcHigh.node, r1.bLock)
    ensures EventOk(c, byzantine, h, e) && HistoryOk(c, byzantine, h + [e])
  {
    AcceptKeeps(c, byzantine, h, r, p, signed);
    assert EventOk(c, byzantine, h, e);
    HistoryGrows(c, byzantine, h, e);
  }

  lemma VotedPast(c: Config, h: seq<Event>, r: Replica, r': Replica, news: seq<Event>)
    requires PastOk(c, h, r) && r.id != c.leader && r'.id == r.id && Height(r'.bLock) >= Height(r.bLock)
    requires VotedUpTo(c, r'.journal) >= VotedUpTo(c, r.journal)
    requires |news| <= 1
    requires news != [] ==> news[0].after == r'.bLock && Height(news[0].block) <= VotedUpTo(c, r'.journal)
    ensures PastOk(c, h + news, r')
  {
  }

  lemma RefusedShape(c: Config, byzantine: set<Id>, s: System, a: Action)
    requires c.members != {} && AllSound(s) && a.Deliver? && Enabled(c, s, a)
    requires !Acceptable(c, KeysOf(byzantine, s.history), s.replicas[a.to], a.p, a.signed)
    ensures Complete(c, byzantine, s, a) == s && Acted(c, byzantine, s, a) == s.replicas[a.to]
  {
    assert s.replicas[a.to := s.replicas[a.to]] == s.replicas && s.history + [] == s.history;
  }

  lemma DeliverKeeps(c: Config, byzantine: set<Id>, s: System, a: Action)
    requires Inv(c, byzantine, s) && AllSound(s) && a.Deliver? && Enabled(c, s, a)
    ensures Goes(c, byzantine, s, Complete(c, byzantine, s, a))
  {
    var r, k := s.replicas[a.to], KeysOf(byzantine, s.history);
    if !Acceptable(c, k, r, a.p, a.signed) {
      RefusedShape(c, byzantine, s, a);
    } else {
      if a.to == c.leader { LeaderIgnores(c, byzantine, s, a.p, a.signed, k); }
      AcceptedStep(c, byzantine, s, a, Complete(c, byzantine, s, a));
    }
  }

  /** The follower after an accepted proposal, and its vote if it casts one. */
  ghost function Follower(c: Config, byzantine: set<Id>, h: seq<Event>, r: Replica, b: Block, durable: bool)
    : (Replica, seq<Event>)
    requires c.members != {} && Sound(r) && Content(b) == Some(b.id) && b.parent.value in r.blocks
  {
    var r1 := Accepted(c, byzantine, h, r, b);
    var (r', v) := CastVote(r1, b, durable);
    (r', if v.None? then [] else [Event(r.id, b.id, r.bLock, r1.qcHigh.node, r1.bLock)])
  }

  lemma FollowerHistory(c: Config, byzantine: set<Id>, h: seq<Event>, r: Replica, p: Proposal, signed: bool, durable: bool)
    requires Setting(c, byzantine) && HistoryOk(c, byzantine, h) && r.id in c.members && r.id !in byzantine
    requires Sound(r) && TreeOk(c, byzantine, h, r) && LockOk(c, byzantine, h, r) && PastOk(c, h, r) && r.id != c.leader
    requires Acceptable(c, KeysOf(byzantine, h), r, p, signed) && Tracks(c, r)
    ensures HistoryOk(c, byzantine, h + Follower(c, byzantine, h, r, p.block, durable).1)
  {
    AcceptKeeps(c, byzantine, h, r, p, signed);
    var news := Follower(c, byzantine, h, r, p.block, durable).1;
    if news != [] {
      VoteIsOk(c, byzantine, h, r, p, signed, news[0]);
    } else {
      assert h + news == h;
    }
  }

  lemma FollowerKeeps(c: Config, byzantine: set<Id>, h: seq<Event>, r: Replica, p: Proposal, signed: bool, durable: bool)
    requires Setting(c, byzantine) && HistoryOk(c, byzantine, h) && r.id in c.members && r.id !in byzantine
    requires Sound(r) && TreeOk(c, byzantine, h, r) && LockOk(c, byzantine, h, r) && PastOk(c, h, r) && r.id != c.leader
    requires Acceptable(c, KeysOf(byzantine, h), r, p, signed) && Tracks(c, r)
    ensures var (r', news) := Follower(c, byzantine, h, r, p.block, durable); var h' := h + news;
            && HistoryOk(c, byzantine, h') && Sound(r') && TreeOk(c, byzantine, h', r') && LockOk(c, byzantine, h', r')
            && PastOk(c, h', r') && ExecMoves(r, r') && r.bExec in r'.blocks && r'.id == r.id && Tracks(c, r')
  {
    FollowerHistory(c, byzantine, h, r, p, signed, durable);
    FollowerPlaces(c, byzantine, h, r, p, signed, durable);
    FollowerTracks(c, byzantine, h, r, p, signed, durable);
  }

  lemma FollowerPlaces(c: Config, byzantine: set<Id>, h: seq<Event>, r: Replica, p: Proposal, signed: bool, durable: bool)
    requires Setting(c, byzantine) && Sound(r) && TreeOk(c, byzantine, h, r) && LockOk(c, byzantine, h, r)
    requires Acceptable(c, KeysOf(byzantine, h), r, p, signed)
    ensures var (r', news) := Follower(c, byzantine, h, r, p.block, durable); var h' := h + news;
            && Sound(r') && TreeOk(c, byzantine, h', r') && LockOk(c, byzantine, h', r')
            && ExecMoves(r, r') && r.bExec in r'.blocks && r'.id == r.id
  {
    AcceptKeeps(c, byzantine, h, r, p, signed);
    var (r', news) := Follower(c, byzantine, h, r, p.block, durable);
    CastKeeps(c, byzantine, h, news, Accepted(c, byzantine, h, r, p.block), r');
  }

  /** A vote changes neither the tree nor the pointers. */
  lemma CastKeeps(c: Config, byzantine: set<Id>, h: seq<Event>, news: seq<Event>, r: Replica, r': Replica)
    requires c.members != {} && Sound(r) && TreeOk(c, byzantine, h, r) && LockOk(c, byzantine, h, r)
    requires r' == r.(vHeight := r'.vHeight, journal := r'.journal)
    ensures Sound(r') && TreeOk(c, byzantine, h + news, r') && LockOk(c, byzantine, h + news, r')
  {
    TreeGrows(c, byzantine, h, h + news, r);
    LockGrows(c, byzantine, h, h + news, r);
  }

  lemma FollowerTracks(c: Config, byzantine: set<Id>, h: seq<Event>, r: Replica, p: Proposal, signed: bool, durable: bool)
    requires Setting(c, byzantine) && Sound(r) && TreeOk(c, byzantine, h, r) && LockOk(c, byzantine, h, r)
    requires PastOk(c, h, r) && r.id != c.leader
    requires Acceptable(c, KeysOf(byzantine, h), r, p, signed) && Tracks(c, r)
    ensures var (r', news) := Follower(c, byzantine, h, r, p.block, durable); PastOk(c, h + news, r') && Tracks(c, r')
  {
    AcceptKeeps(c, byzantine, h, r, p, signed);
    var (r', news) := Follower(c, byzantine, h, r, p.block, durable);
    DeliverTracks(c, KeysOf(byzantine, h), r, p.block, durable);
    VotedPast(c, h, r, r', news);
  }

  lemma FollowerRuns(c: Config, byzantine: set<Id>, h: seq<Event>, r: Replica, b: Block, durable: bool)
    requires c.members != {} && Sound(r) && Content(b) == Some(b.id) && b.parent.value in r.blocks
    ensures RunsMove(r, Follower(c, byzantine, h, r, b, durable).0)
  {
    var r1 := Insert(r, b);
    var r2 := Accepted(c, byzantine, h, r, b);
    if RunsOk(r.journal, r.bExec) {
      InsertRuns(r, r1, b);
      TakenRuns(c, KeysOf(byzantine, h), r1, b.justify);
      if RunsOk(r2.journal, r2.bExec) { CastRuns(r2, b, durable); }
    }
  }

  lemma AcceptedStep(c: Config, byzantine: set<Id>, s: System, a: Action, s': System)
    requires Inv(c, byzantine, s) && AllSound(s) && a.Deliver? && Enabled(c, s, a) && a.to != c.leader
    requires Acceptable(c, KeysOf(byzantine, s.history), s.replicas[a.to], a.p, a.signed)
    requires s' == Complete(c, byzantine, s, a)
    ensures Goes(c, byzantine, s, s')
  {
    var r, h := s.replicas[a.to], s.history;
    var (r', news) := Follower(c, byzantine, h, r, a.p.block, a.durable);
    FollowerKeeps(c, byzantine, h, r, a.p, a.signed, a.durable);
    FollowerRuns(c, byzantine, h, r, a.p.block, a.durable);
    AcceptedShape(c, byzantine, s, a);
    assert ReplicaOk(c, byzantine, s', r');
    Assemble(c, byzantine, s, s', r, r');
  }

  lemma AcceptedShape(c: Config, byzantine: set<Id>, s: System, a: Action)
    requires c.members != {} && AllSound(s) && a.Deliver? && Enabled(c, s, a) && s.replicas[a.to].id == a.to
    requires Acceptable(c, KeysOf(byzantine, s.history), s.replicas[a.to], a.p, a.signed)
    ensures var r := s.replicas[a.to]; var s' := Complete(c, byzantine, s, a);
            var (r', news) := Follower(c, byzantine, s.history, r, a.p.block, a.durable);
            r'.id == r.id ==> Moved(c, s, s', r, r') && s'.history == s.history + news && s'.proposals == s.proposals
  {
  }

  // ---- the leader counts votes ----

  lemma CountKeeps(c: Config, byzantine: set<Id>, h: seq<Event>, r: Replica, v: Vote)
    requires Setting(c, byzantine) && Sound(r) && TreeOk(c, byzantine, h, r) && LockOk(c, byzantine, h, r)
    ensures var r' := VoteForBlock(c, KeysOf(byzantine, h), r, v);
            && Sound(r') && SameTree(r, r') && TreeOk(c, byzantine, h, r') && LockOk(c, byzantine, h, r')
            && Height(r'.bLock) >= Height(r.bLock) && ExecMoves(r, r')
  {
    var k := KeysOf(byzantine, h);
    var r' := VoteForBlock(c, k, r, v);
    VoteCases(c, k, r, v);
    if r' != r.(votes := r'.votes) { CountedKeeps(c, byzantine, h, r, v, r'); }
  }

  lemma CountedKeeps(c: Config, byzantine: set<Id>, h: seq<Event>, r: Replica, v: Vote, r': Replica)
    requires Setting(c, byzantine) && Sound(r) && TreeOk(c, byzantine, h, r) && LockOk(c, byzantine, h, r)
    requires v.node in r.blocks && Sound(Counted(r, v))
    requires r' == OnNewQC(c, KeysOf(byzantine, h), Counted(r, v), QC(v.node, v.height, AllVoters(r, v)))
    ensures Sound(r') && SameTree(r, r') && TreeOk(c, byzantine, h, r') && LockOk(c, byzantine, h, r')
    ensures Height(r'.bLock) >= Height(r.bLock) && ExecMoves(r, r')
  {
    TakeQC(c, byzantine, h, Counted(r, v), QC(v.node, v.height, AllVoters(r, v)));
  }

  lemma SameTreePast(c: Config, h: seq<Event>, r: Replica, r': Replica)
    requires PastOk(c, h, r) && SameTree(r, r') && Height(r'.bLock) >= Height(r.bLock)
    requires VotedUpTo(c, r'.journal) >= VotedUpTo(c, r.journal)
    ensures PastOk(c, h, r')
  {
  }

  lemma CollectShape(c: Config, byzantine: set<Id>, s: System, a: Action)
    requires c.members != {} && AllSound(s) && a.Collect? && Enabled(c, s, a) && s.replicas[c.leader].id == c.leader
    ensures var r := s.replicas[c.leader]; var r' := VoteForBlock(c, KeysOf(byzantine, s.history), r, a.v);
            && Complete(c, byzantine, s, a) ==
               System(s.replicas[c.leader := r'], s.history, s.proposals,
                      if r'.bExec == r.bExec then s.commits else s.commits + [ChainBelow(r'.qcHigh.node)])
            && (r'.id == r.id ==> Moved(c, s, Complete(c, byzantine, s, a), r, r'))
  {
    assert s.history + [] == s.history;
  }

  lemma CollectKeeps(c: Config, byzantine: set<Id>, s: System, a: Action)
    requires Inv(c, byzantine, s) && AllSound(s) && a.Collect? && Enabled(c, s, a)
    ensures Goes(c, byzantine, s, Complete(c, byzantine, s, a))
  {
    var r, h := s.replicas[c.leader], s.history;
    var r' := VoteForBlock(c, KeysOf(byzantine, h), r, a.v);
    VotedKeeps(c, byzantine, h, r, a.v);
    CountRuns(c, KeysOf(byzantine, h), r, a.v);
    CollectShape(c, byzantine, s, a);
    AssembleLeader(c, byzantine, s, Complete(c, byzantine, s, a), r, r');
  }

  // ---- the leader proposes ----

  /** The leader's vote for its own block is a correct event although it checks neither lock nor vote height: the block
      stands on the highest certified block, which is above the lock. */
  lemma SelfVoteIsOk(c: Config, byzantine: set<Id>, h: seq<Event>, r: Replica, cmd: string)
    requires Setting(c, byzantine) && HistoryOk(c, byzantine, h) && r.id in c.members && r.id !in byzantine
    requires Sound(r) && LockOk(c, byzantine, h, r) && PastOk(c, h, r) && MayPropose(c, r)
    ensures var e := SelfVote(r, cmd); EventOk(c, byzantine, h, e) && HistoryOk(c, byzantine, h + [e])
    ensures Height(NextBlock(r, cmd).id) > Height(r.head) && NextBlock(r, cmd).id !in r.blocks
  {
    var e := SelfVote(r, cmd);
    assert r.head in r.blocks.Keys;
    ExtendsGenesis(e.block);
    HistoryGrows(c, byzantine, h, e);
  }

  /** The tree of the leader with its next block. */
  function Extended(r: Replica, b: Block): Replica
    requires Sound(r) && Content(b) == Some(b.id) && b.parent.value in r.blocks
  {
    Insert(r, b).(head := b.id)
  }

  lemma ProposedTree(c: Config, byzantine: set<Id>, h: seq<Event>, h': seq<Event>, r: Replica, b: Block, proposals: set<Block>)
    requires c.members != {} && h <= h' && Sound(r) && TreeOk(c, byzantine, h, r) && LockOk(c, byzantine, h, r)
    requires LeaderOk(r, proposals) && r.qcHigh.node == r.head
    requires Content(b) == Some(b.id) && b.parent == Some(r.head) && b.id !in r.blocks && Height(b.id) > Height(r.head)
    requires b.justify == r.qcHigh
    ensures var r1 := Extended(r, b);
            && Sound(r1) && TreeOk(c, byzantine, h', r1) && LockOk(c, byzantine, h', r1) && LeaderOk(r1, proposals + {b})
  {
    TreeGrows(c, byzantine, h, h', r);
    LockGrows(c, byzantine, h, h', r);
  }

  lemma ExtendedPast(c: Config, h: seq<Event>, r: Replica, e: Event, b: Block)
    requires PastOk(c, h, r) && r.id == c.leader && e.block == b.id && e.after == r.bLock
    requires Sound(r) && Content(b) == Some(b.id) && b.parent.value in r.blocks
    ensures PastOk(c, h + [e], Extended(r, b))
  {
  }

  lemma LeaderKeeps(c: Config, byzantine: set<Id>, h: seq<Event>, r: Replica, cmd: string, proposals: set<Block>)
    requires Setting(c, byzantine) && HistoryOk(c, byzantine, h) && r.id in c.members && r.id !in byzantine
    requires Sound(r) && TreeOk(c, byzantine, h, r) && LockOk(c, byzantine, h, r) && PastOk(c, h, r)
    requires LeaderOk(r, proposals) && MayPropose(c, r) && Tracks(c, r)
    ensures var h', b := h + [SelfVote(r, cmd)], NextBlock(r, cmd);
            var r' := Propose(c, KeysOf(byzantine, h'), r, cmd).0;
            && HistoryOk(c, byzantine, h') && Sound(r') && TreeOk(c, byzantine, h', r') && LockOk(c, byzantine, h', r')
            && PastOk(c, h', r') && LeaderOk(r', proposals + {b}) && ExecMoves(r, r') && r.bExec in r'.blocks
            && r'.id == r.id && Tracks(c, r')
  {
    var h', b := h + [SelfVote(r, cmd)], NextBlock(r, cmd);
    SelfVoteIsOk(c, byzantine, h, r, cmd);
    ProposedTree(c, byzantine, h, h', r, b, proposals);
    var r1 := Extended(r, b);
    InsertTracks(c, r, b, r1);
    ExtendedPast(c, h, r, SelfVote(r, cmd), b);
    VotedKeeps(c, byzantine, h', r1, Vote(b.height, b.id, r.id));
  }

  lemma VotedKeeps(c: Config, byzantine: set<Id>, h: seq<Event>, r: Replica, v: Vote)
    requires Setting(c, byzantine) && Sound(r) && TreeOk(c, byzantine, h, r) && LockOk(c, byzantine, h, r)
    requires PastOk(c, h, r) && Tracks(c, r)
    ensures var r' := VoteForBlock(c, KeysOf(byzantine, h), r, v);
            && Sound(r') && SameTree(r, r') && TreeOk(c, byzantine, h, r') && LockOk(c, byzantine, h, r')
            && PastOk(c, h, r') && ExecMoves(r, r') && Tracks(c, r')
  {
    CountKeeps(c, byzantine, h, r, v);
    CountTracks(c, KeysOf(byzantine, h), r, v);
    SameTreePast(c, h, r, VoteForBlock(c, KeysOf(byzantine, h), r, v));
  }

  lemma LeaderRuns(c: Config, k: Keys, r: Replica, cmd: string)
    requires c.members != {} && Sound(r) && MayPropose(c, r)
    ensures RunsMove(r, Propose(c, k, r, cmd).0)
  {
    var b := NextBlock(r, cmd);
    var r1 := Extended(r, b);
    if RunsOk(r.journal, r.bExec) {
      InsertRuns(r, r1, b);
      CountRuns(c, k, r1, Vote(b.height, b.id, r.id));
    }
  }

  lemma ProposeShape(c: Config, byzantine: set<Id>, s: System, a: Action)
    requires c.members != {} && AllSound(s) && a.ProposeNext? && Enabled(c, s, a) && s.replicas[c.leader].id == c.leader
    ensures var r := s.replicas[c.leader];
            var h' := s.history + [SelfVote(r, a.cmd)]; var r' := Propose(c, KeysOf(byzantine, h'), r, a.cmd).0;
            Complete(c, byzantine, s, a) ==
            System(s.replicas[c.leader := r'], h', s.proposals + {NextBlock(r, a.cmd)},
                   if r'.bExec == r.bExec then s.commits else s.commits + [ChainBelow(r'.qcHigh.node)])
  {
  }

  lemma LeaderMoved(c: Config, s: System, r: Replica, r': Replica, e: Event, proposals: set<Block>)
    requires c.leader in s.replicas && r == s.replicas[c.leader] && r.id == c.leader == r'.id == e.voter
    ensures Moved(c, s, System(s.replicas[c.leader := r'], s.history + [e], proposals,
                               if r'.bExec == r.bExec then s.commits else s.commits + [ChainBelow(r'.qcHigh.node)]), r, r')
  {
  }

  lemma ProposeMoved(c: Config, byzantine: set<Id>, s: System, a: Action, r': Replica)
    requires c.members != {} && AllSound(s) && a.ProposeNext? && Enabled(c, s, a) && s.replicas[c.leader].id == c.leader
    requires var r := s.replicas[c.leader];
             r' == Propose(c, KeysOf(byzantine, s.history + [SelfVote(r, a.cmd)]), r, a.cmd).0 && r'.id == r.id
    ensures var r := s.replicas[c.leader]; var s' := Complete(c, byzantine, s, a);
            && Moved(c, s, s', r, r') && s'.history == s.history + [SelfVote(r, a.cmd)]
            && s'.proposals == s.proposals + {NextBlock(r, a.cmd)}
  {
    var r := s.replicas[c.leader];
    ProposeShape(c, byzantine, s, a);
    LeaderMoved(c, s, r, r', SelfVote(r, a.cmd), s.proposals + {NextBlock(r, a.cmd)});
  }

  lemma ProposeKeeps(c: Config, byzantine: set<Id>, s: System, a: Action)
    requires Inv(c, byzantine, s) && AllSound(s) && a.ProposeNext? && Enabled(c, s, a)
    ensures Goes(c, byzantine, s, Complete(c, byzantine, s, a))
  {
    var r, h := s.replicas[c.leader], s.history;
    LeaderKeeps(c, byzantine, h, r, a.cmd, s.proposals);
    var r' := Propose(c, KeysOf(byzantine, h + [SelfVote(r, a.cmd)]), r, a.cmd).0;
    LeaderRuns(c, KeysOf(byzantine, h + [SelfVote(r, a.cmd)]), r, a.cmd);
    ProposeMoved(c, byzantine, s, a, r');
    AssembleLeader(c, byzantine, s, Complete(c, byzantine, s, a), r, r');
  }

  lemma AssembleLeader(c: Config, byzantine: set<Id>, s: System, s': System, r: Replica, r': Replica)
    requires Inv(c, byzantine, s) && Moved(c, s, s', r, r') && HistoryOk(c, byzantine, s'.history) && r.id == c.leader
    requires Sound(r') && TreeOk(c, byzantine, s'.history, r') && LockOk(c, byzantine, s'.history, r')
    requires PastOk(c, s'.history, r') && LeaderOk(r', s'.proposals) && ExecMoves(r, r') && r.bExec in r'.blocks
    requires Tracks(c, r') && RunsMove(r, r')
    ensures Goes(c, byzantine, s, s')
  {
    Assemble(c, byzantine, s, s', r, r');
  }

  lemma InvSound(c: Config, byzantine: set<Id>, s: System)
    requires Inv(c, byzantine, s)
    ensures AllSound(s)
  {
    forall r | r in s.replicas ensures Sound(s.replicas[r]) {
      assert NamedOk(c, byzantine, s, r);
    }
  }

  /** A handler that runs to its end. */
  lemma CompleteKeeps(c: Config, byzantine: set<Id>, s: System, a: Action)
    requires Inv(c, byzantine, s) && AllSound(s) && Enabled(c, s, a) && !a.Crash?
    ensures Goes(c, byzantine, s, Complete(c, byzantine, s, a))
  {
    match a
    case ProposeNext(_) => ProposeKeeps(c, byzantine, s, a);
    case Deliver(_, _, _, _) => DeliverKeeps(c, byzantine, s, a);
    case Collect(_) => CollectKeeps(c, byzantine, s, a);
  }
}
