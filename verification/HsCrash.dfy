/** A crash in the middle of a handler keeps the invariant: recovery finds the replica as it was at some stage of the
    handler, and what had left the replica by then agrees with that stage. */
module HsCrash {
  import opened Options
  import opened HsTypes
  import opened HsSpec
  import opened HsRecovery
  import opened HsDurable
  import opened HsOnce
  import opened HsQuorum
  import opened HsHistory
  import opened HsSystem
  import opened HsInvariant
  import opened HsSafety
  import opened HsSteps

  /** The restarted replica is as well placed as the one whose state it finds. */
  lemma RestartPlaced(c: Config, byzantine: set<Id>, h: seq<Event>, y: Replica, x: Replica, j: seq<Effect>, v: nat)
    requires c.members != {} && Sound(y) && TreeOk(c, byzantine, h, y) && LockOk(c, byzantine, h, y)
    requires Restarted(x, y, y.id, j, v)
    ensures Sound(x) && TreeOk(c, byzantine, h, x) && LockOk(c, byzantine, h, x) && x.id == y.id
  {
  }

  lemma RestartMoves(r: Replica, y: Replica, x: Replica, j: seq<Effect>, v: nat)
    requires Restarted(x, y, y.id, j, v) && ExecMoves(r, y)
    ensures ExecMoves(r, x)
  {
  }

  /** Executed commands after a restart. `full` is the replica that would have resulted without the crash. */
  lemma RestartRuns(r: Replica, y: Replica, full: Replica, x: Replica, j: seq<Effect>, v: nat)
    requires Restarted(x, y, y.id, j, v) && RunsMove(r, y) && RunsMove(r, full)
    requires j == y.journal || (j <= full.journal && full.bExec == y.bExec)
    ensures RunsMove(r, x)
  {
    if j != y.journal && RunsOk(full.journal, full.bExec) {
      RunsPrefix(full.journal, full.bExec, |j|);
      assert full.journal[..|j|] == j;
    }
  }

  // ---- during a proposal ----

  /** Every stage of an accepted proposal is well placed. */
  lemma StagePlaced(c: Config, byzantine: set<Id>, h: seq<Event>, r: Replica, p: Proposal, signed: bool, y: Replica)
    requires Setting(c, byzantine) && Sound(r) && TreeOk(c, byzantine, h, r) && LockOk(c, byzantine, h, r)
    requires Acceptable(c, KeysOf(byzantine, h), r, p, signed)
    requires y == r || y == Insert(r, p.block) || y == Accepted(c, byzantine, h, r, p.block)
    ensures Sound(y) && TreeOk(c, byzantine, h, y) && LockOk(c, byzantine, h, y) && y.id == r.id
    ensures ExecMoves(r, y) && Height(y.bLock) >= Height(r.bLock) && r.bExec in y.blocks
  {
    AcceptKeeps(c, byzantine, h, r, p, signed);
    if y == Insert(r, p.block) { InsertOk(c, byzantine, h, r, p.block); }
  }

  lemma StageRuns(c: Config, byzantine: set<Id>, h: seq<Event>, r: Replica, b: Block, y: Replica)
    requires c.members != {} && Sound(r) && Content(b) == Some(b.id) && b.parent.value in r.blocks
    requires y == r || y == Insert(r, b) || y == Accepted(c, byzantine, h, r, b)
    ensures RunsMove(r, y)
  {
    if y == Insert(r, b) {
      if RunsOk(r.journal, r.bExec) { InsertRuns(r, y, b); }
    } else if y != r {
      if RunsOk(r.journal, r.bExec) {
        InsertRuns(r, Insert(r, b), b);
        TakenRuns(c, KeysOf(byzantine, h), Insert(r, b), b.justify);
      }
    }
  }

  /** The follower after a crash that keeps the first `n` effects, and its vote if it got out. */
  ghost function Fallen(c: Config, byzantine: set<Id>, h: seq<Event>, r: Replica, b: Block, durable: bool, n: nat)
    : (Replica, seq<Event>)
    requires c.members != {} && Sound(r) && Content(b) == Some(b.id) && b.parent.value in r.blocks
    requires n <= |Follower(c, byzantine, h, r, b, durable).0.journal|
  {
    var (full, news) := Follower(c, byzantine, h, r, b, durable);
    (Recover(c, r.id, full.journal[..n]), if n == |full.journal| then news else [])
  }

  lemma FallenFinds(c: Config, byzantine: set<Id>, h: seq<Event>, r: Replica, p: Proposal, signed: bool, durable: bool, n: nat)
    returns (y: Replica, v: nat)
    requires c.members != {} && Sound(r) && Tracks(c, r) && Acceptable(c, KeysOf(byzantine, h), r, p, signed)
    requires |r.journal| <= n <= |Follower(c, byzantine, h, r, p.block, durable).0.journal|
    ensures y == r || y == Insert(r, p.block) || y == Accepted(c, byzantine, h, r, p.block)
    ensures var (full, news) := Follower(c, byzantine, h, r, p.block, durable);
            var (x, _) := Fallen(c, byzantine, h, r, p.block, durable, n);
            && Restarted(x, y, r.id, full.journal[..n], v) && Tracks(c, x) && VotedUpTo(c, x.journal) == v
            && v >= VotedUpTo(c, r.journal) && (v == VotedUpTo(c, r.journal) || v == p.block.height)
            && (y == Accepted(c, byzantine, h, r, p.block) || full.journal[..n] == y.journal)
            && (n == |full.journal| ==> y == Accepted(c, byzantine, h, r, p.block))
            && (n == |full.journal| && news != [] ==> v == p.block.height)
  {
    var b, k := p.block, KeysOf(byzantine, h);
    var full := Follower(c, byzantine, h, r, b, durable).0;
    var v0 := VotedUpTo(c, r.journal);
    y, v := DeliverCut(c, k, r, b, durable, v0, n);
    DeliverVotes(c, k, r, b, durable, v0, n, v);
    Restart(c, r.id, full.journal[..n], y, v);
  }

  lemma FallenPlaced(c: Config, byzantine: set<Id>, h: seq<Event>, r: Replica, p: Proposal, signed: bool, durable: bool, n: nat)
    requires Setting(c, byzantine) && Sound(r) && TreeOk(c, byzantine, h, r) && LockOk(c, byzantine, h, r) && Tracks(c, r)
    requires Acceptable(c, KeysOf(byzantine, h), r, p, signed)
    requires |r.journal| <= n <= |Follower(c, byzantine, h, r, p.block, durable).0.journal|
    ensures var (x, news) := Fallen(c, byzantine, h, r, p.block, durable, n);
            && Sound(x) && TreeOk(c, byzantine, h, x) && LockOk(c, byzantine, h, x) && Height(x.bLock) >= Height(r.bLock)
            && ExecMoves(r, x) && r.bExec in x.blocks && x.id == r.id && Tracks(c, x)
            && VotedUpTo(c, x.journal) >= VotedUpTo(c, r.journal)
            && (news != [] ==> news[0].after == x.bLock && Height(news[0].block) <= VotedUpTo(c, x.journal))
  {
    var j := Follower(c, byzantine, h, r, p.block, durable).0.journal[..n];
    var x := Fallen(c, byzantine, h, r, p.block, durable, n).0;
    var y, v := FallenFinds(c, byzantine, h, r, p, signed, durable, n);
    StagePlaced(c, byzantine, h, r, p, signed, y);
    RestartPlaced(c, byzantine, h, y, x, j, v);
    RestartMoves(r, y, x, j, v);
  }

  lemma FallenHistory(c: Config, byzantine: set<Id>, h: seq<Event>, r: Replica, p: Proposal, signed: bool, durable: bool, n: nat)
    requires Setting(c, byzantine) && HistoryOk(c, byzantine, h) && r.id in c.members && r.id !in byzantine
    requires Sound(r) && TreeOk(c, byzantine, h, r) && LockOk(c, byzantine, h, r) && PastOk(c, h, r) && r.id != c.leader
    requires Acceptable(c, KeysOf(byzantine, h), r, p, signed) && VotedUpTo(c, r.journal) <= r.vHeight
    requires n <= |Follower(c, byzantine, h, r, p.block, durable).0.journal|
    ensures HistoryOk(c, byzantine, h + Fallen(c, byzantine, h, r, p.block, durable, n).1)
  {
    var news := Fallen(c, byzantine, h, r, p.block, durable, n).1;
    if news != [] {
      TakenShape(c, KeysOf(byzantine, h), Insert(r, p.block), p.block.justify);
      VoteIsOk(c, byzantine, h, r, p, signed, news[0]);
    } else {
      assert h + news == h;
    }
  }

  lemma FallenKeeps(c: Config, byzantine: set<Id>, h: seq<Event>, r: Replica, p: Proposal, signed: bool, durable: bool, n: nat)
    requires Setting(c, byzantine) && HistoryOk(c, byzantine, h) && r.id in c.members && r.id !in byzantine
    requires Sound(r) && TreeOk(c, byzantine, h, r) && LockOk(c, byzantine, h, r) && PastOk(c, h, r) && r.id != c.leader
    requires Acceptable(c, KeysOf(byzantine, h), r, p, signed) && Tracks(c, r)
    requires |r.journal| <= n <= |Follower(c, byzantine, h, r, p.block, durable).0.journal|
    ensures var (x, news) := Fallen(c, byzantine, h, r, p.block, durable, n); var h' := h + news;
            && HistoryOk(c, byzantine, h') && Sound(x) && TreeOk(c, byzantine, h', x) && LockOk(c, byzantine, h', x)
            && PastOk(c, h', x) && ExecMoves(r, x) && r.bExec in x.blocks && x.id == r.id && Tracks(c, x)
  {
    var (x, news) := Fallen(c, byzantine, h, r, p.block, durable, n);
    FallenPlaced(c, byzantine, h, r, p, signed, durable, n);
    FallenHistory(c, byzantine, h, r, p, signed, durable, n);
    VotedPast(c, h, r, x, news);
    TreeGrows(c, byzantine, h, h + news, x);
    LockGrows(c, byzantine, h, h + news, x);
  }

  lemma FallenRuns(c: Config, byzantine: set<Id>, h: seq<Event>, r: Replica, p: Proposal, signed: bool, durable: bool, n: nat)
    requires c.members != {} && Sound(r) && Tracks(c, r) && Acceptable(c, KeysOf(byzantine, h), r, p, signed)
    requires |r.journal| <= n <= |Follower(c, byzantine, h, r, p.block, durable).0.journal|
    ensures RunsMove(r, Fallen(c, byzantine, h, r, p.block, durable, n).0)
  {
    var full := Follower(c, byzantine, h, r, p.block, durable).0;
    var x := Fallen(c, byzantine, h, r, p.block, durable, n).0;
    var y, v := FallenFinds(c, byzantine, h, r, p, signed, durable, n);
    StageRuns(c, byzantine, h, r, p.block, y);
    FollowerRuns(c, byzantine, h, r, p.block, durable);
    CastShape(Accepted(c, byzantine, h, r, p.block), p.block, durable);
    TakenShape(c, KeysOf(byzantine, h), Insert(r, p.block), p.block.justify);
    RestartRuns(r, y, full, x, full.journal[..n], v);
  }

  /** One replica has crashed and come back. */
  lemma AssembleFallen(c: Config, byzantine: set<Id>, s: System, s': System, r: Replica, x: Replica)
    requires Inv(c, byzantine, s) && Moved(c, s, s', r, x) && HistoryOk(c, byzantine, s'.history) && r.id != c.leader
    requires Sound(x) && TreeOk(c, byzantine, s'.history, x) && LockOk(c, byzantine, s'.history, x)
    requires PastOk(c, s'.history, x) && ExecMoves(r, x) && r.bExec in x.blocks && Tracks(c, x) && RunsMove(r, x)
    ensures Goes(c, byzantine, s, s')
  {
    Assemble(c, byzantine, s, s', r, x);
  }

  lemma ActedDeliver(c: Config, byzantine: set<Id>, s: System, a: Action)
    requires c.members != {} && AllSound(s) && a.Deliver? && Enabled(c, s, a) && s.replicas[a.to].id == a.to
    requires Acceptable(c, KeysOf(byzantine, s.history), s.replicas[a.to], a.p, a.signed)
    ensures var (full, news) := Follower(c, byzantine, s.history, s.replicas[a.to], a.p.block, a.durable);
            && Acted(c, byzantine, s, a) == full && NewEvents(c, byzantine, s, a) == news
            && forall e :: e in news ==> e.voter == a.to
  {
  }

  lemma FallbackMoved(c: Config, s: System, a: Action, r': Replica, news: seq<Event>, n: nat)
    requires a.Deliver? && a.to in s.replicas && s.replicas[a.to].id == a.to && n <= |r'.journal|
    requires forall e :: e in news ==> e.voter == a.to
    ensures var r, x := s.replicas[a.to], Recover(c, a.to, r'.journal[..n]); var s' := Fallback(c, s, a, r', news, n);
            && Moved(c, s, s', r, x) && s'.history == s.history + if n == |r'.journal| then news else []
  {
    assert s.history + [] == s.history;
  }

  lemma DeliverBroken(c: Config, byzantine: set<Id>, s: System, a: Action, cut: nat)
    requires Inv(c, byzantine, s) && AllSound(s) && a.Deliver? && Enabled(c, s, a) && a.to != c.leader
    requires Acceptable(c, KeysOf(byzantine, s.history), s.replicas[a.to], a.p, a.signed)
    ensures Goes(c, byzantine, s, Broken(c, byzantine, s, a, cut))
  {
    assert NamedOk(c, byzantine, s, a.to);
    var full, news, n := BrokenDeliver(c, byzantine, s, a, cut);
    FallenStep(c, byzantine, s, a, full, news, n);
  }

  lemma BrokenDeliver(c: Config, byzantine: set<Id>, s: System, a: Action, cut: nat)
    returns (full: Replica, news: seq<Event>, n: nat)
    requires c.members != {} && AllSound(s) && a.Deliver? && Enabled(c, s, a) && s.replicas[a.to].id == a.to
    requires Acceptable(c, KeysOf(byzantine, s.history), s.replicas[a.to], a.p, a.signed)
    ensures (full, news) == Follower(c, byzantine, s.history, s.replicas[a.to], a.p.block, a.durable)
    ensures |s.replicas[a.to].journal| <= n <= |full.journal| && forall e :: e in news ==> e.voter == a.to
    ensures Broken(c, byzantine, s, a, cut) == Fallback(c, s, a, full, news, n)
  {
    var r := s.replicas[a.to];
    full, news := Acted(c, byzantine, s, a), NewEvents(c, byzantine, s, a);
    ActedDeliver(c, byzantine, s, a);
    DeliverOrder(c, KeysOf(byzantine, s.history), r, a.p.block, a.durable);
    n := Kept(cut, r.journal, full.journal);
    KeptBetween(cut, r.journal, full.journal);
  }

  lemma KeptBetween(cut: nat, before: seq<Effect>, after: seq<Effect>)
    requires before <= after
    ensures |before| <= Kept(cut, before, after) <= |after|
  {
  }

  lemma FallenStep(c: Config, byzantine: set<Id>, s: System, a: Action, full: Replica, news: seq<Event>, n: nat)
    requires Inv(c, byzantine, s) && AllSound(s) && a.Deliver? && Enabled(c, s, a) && a.to != c.leader
    requires Acceptable(c, KeysOf(byzantine, s.history), s.replicas[a.to], a.p, a.signed)
    requires (full, news) == Follower(c, byzantine, s.history, s.replicas[a.to], a.p.block, a.durable)
    requires |s.replicas[a.to].journal| <= n <= |full.journal| && forall e :: e in news ==> e.voter == a.to
    ensures Goes(c, byzantine, s, Fallback(c, s, a, full, news, n))
  {
    var r, h := s.replicas[a.to], s.history;
    assert NamedOk(c, byzantine, s, a.to);
    FallenKeeps(c, byzantine, h, r, a.p, a.signed, a.durable, n);
    FallenRuns(c, byzantine, h, r, a.p, a.signed, a.durable, n);
    FallbackMoved(c, s, a, full, news, n);
    AssembleFallen(c, byzantine, s, Fallback(c, s, a, full, news, n), r, Recover(c, a.to, full.journal[..n]));
  }

  // ---- between handlers, or during one that does nothing ----

  /** A restart with nothing lost. */
  lemma PlainRestart(c: Config, byzantine: set<Id>, s: System, r: Replica, s': System)
    requires Inv(c, byzantine, s) && r.id in s.replicas && r == s.replicas[r.id]
    requires s' == s.(replicas := s.replicas[r.id := Recover(c, r.id, r.journal)])
    ensures Goes(c, byzantine, s, s')
  {
    var v, x := VotedUpTo(c, r.journal), Recover(c, r.id, r.journal);
    assert NamedOk(c, byzantine, s, r.id);
    Restart(c, r.id, r.journal, r, v);
    RestartPlaced(c, byzantine, s.history, r, x, r.journal, v);
    PlainPast(c, s.history, r, x);
    assert ExecMoves(r, x) && RunsMove(r, x);
    assert Moved(c, s, s', r, x);
    assert ReplicaOk(c, byzantine, s', x);
    Assemble(c, byzantine, s, s', r, x);
  }

  lemma PlainPast(c: Config, h: seq<Event>, r: Replica, x: Replica)
    requires PastOk(c, h, r) && x.id == r.id && x.blocks == r.blocks && x.bLock == r.bLock && x.journal == r.journal
    ensures PastOk(c, h, x)
  {
  }

  lemma RefusedBroken(c: Config, byzantine: set<Id>, s: System, a: Action, cut: nat)
    requires c.members != {} && AllSound(s) && a.Deliver? && Enabled(c, s, a)
    requires !Acceptable(c, KeysOf(byzantine, s.history), s.replicas[a.to], a.p, a.signed)
    requires Tracks(c, s.replicas[a.to])
    ensures Broken(c, byzantine, s, a, cut) ==
            s.(replicas := s.replicas[a.to := Recover(c, a.to, s.replicas[a.to].journal)])
  {
    var r := s.replicas[a.to];
    assert r.journal[..|r.journal|] == r.journal && s.history + [] == s.history;
    Restart(c, a.to, r.journal, r, VotedUpTo(c, r.journal));
  }

  // ---- the leader ----

  /** The leader after a crash while it counts a vote. */
  lemma CountFallen(c: Config, byzantine: set<Id>, h: seq<Event>, r: Replica, vote: Vote, n: nat)
    requires Setting(c, byzantine) && Sound(r) && TreeOk(c, byzantine, h, r) && LockOk(c, byzantine, h, r) && Tracks(c, r)
    requires |r.journal| <= n <= |VoteForBlock(c, KeysOf(byzantine, h), r, vote).journal|
    ensures var x := Recover(c, r.id, VoteForBlock(c, KeysOf(byzantine, h), r, vote).journal[..n]);
            && Sound(x) && TreeOk(c, byzantine, h, x) && LockOk(c, byzantine, h, x) && Height(x.bLock) >= Height(r.bLock)
            && x.blocks == r.blocks && x.id == r.id && Tracks(c, x) && ExecMoves(r, x) && RunsMove(r, x)
  {
    var k, v := KeysOf(byzantine, h), VotedUpTo(c, r.journal);
    var r' := VoteForBlock(c, k, r, vote);
    var y := CountCut(c, k, r, vote, v, n);
    CountSilent(c, k, r, vote);
    SilentVotes(r.journal, r'.journal, n, v);
    Restart(c, r.id, r'.journal[..n], y, v);
    CountKeeps(c, byzantine, h, r, vote);
    CountRuns(c, k, r, vote);
    CountedFallen(c, byzantine, h, r, y, r', Recover(c, r.id, r'.journal[..n]), r'.journal[..n], v);
  }

  lemma CountedFallen(c: Config, byzantine: set<Id>, h: seq<Event>, r: Replica, y: Replica, r': Replica, x: Replica,
                      j: seq<Effect>, v: nat)
    requires c.members != {} && Sound(y) && TreeOk(c, byzantine, h, y) && LockOk(c, byzantine, h, y)
    requires SameTree(r, y) && Height(y.bLock) >= Height(r.bLock) && ExecMoves(r, y) && RunsMove(r, y) && RunsMove(r, r')
    requires Restarted(x, y, r.id, j, v) && (j == y.journal || (j <= r'.journal && y.bExec == r'.bExec))
    ensures Sound(x) && TreeOk(c, byzantine, h, x) && LockOk(c, byzantine, h, x) && Height(x.bLock) >= Height(r.bLock)
    ensures x.blocks == r.blocks && x.id == r.id && ExecMoves(r, x) && RunsMove(r, x)
  {
    RestartPlaced(c, byzantine, h, y, x, j, v);
    RestartMoves(r, y, x, j, v);
    RestartRuns(r, y, r', x, j, v);
  }

  lemma LeaderPast(c: Config, h: seq<Event>, r: Replica, x: Replica)
    requires PastOk(c, h, r) && r.id == c.leader && x.id == r.id && x.blocks == r.blocks
    requires Height(x.bLock) >= Height(r.bLock)
    ensures PastOk(c, h, x)
  {
  }

  lemma BrokenCollect(c: Config, byzantine: set<Id>, s: System, a: Action, cut: nat) returns (r': Replica, n: nat)
    requires c.members != {} && AllSound(s) && a.Collect? && Enabled(c, s, a)
    ensures r' == VoteForBlock(c, KeysOf(byzantine, s.history), s.replicas[c.leader], a.v)
    ensures |s.replicas[c.leader].journal| <= n <= |r'.journal|
    ensures Broken(c, byzantine, s, a, cut) == Fallback(c, s, a, r', [], n)
  {
    r' := VoteForBlock(c, KeysOf(byzantine, s.history), s.replicas[c.leader], a.v);
    CountSilent(c, KeysOf(byzantine, s.history), s.replicas[c.leader], a.v);
    n := Kept(cut, s.replicas[c.leader].journal, r'.journal);
  }

  lemma CollectMoved(c: Config, s: System, a: Action, r': Replica, n: nat)
    requires a.Collect? && c.leader in s.replicas && s.replicas[c.leader].id == c.leader && n <= |r'.journal|
    ensures var r, x := s.replicas[c.leader], Recover(c, c.leader, r'.journal[..n]); var s' := Fallback(c, s, a, r', [], n);
            Moved(c, s, s', r, x) && s'.history == s.history && s'.proposals == s.proposals
  {
    assert s.history + [] == s.history;
  }

  lemma CollectBroken(c: Config, byzantine: set<Id>, s: System, a: Action, cut: nat)
    requires Inv(c, byzantine, s) && AllSound(s) && a.Collect? && Enabled(c, s, a)
    ensures Goes(c, byzantine, s, Broken(c, byzantine, s, a, cut))
  {
    var r := s.replicas[c.leader];
    assert NamedOk(c, byzantine, s, c.leader);
    var r', n := BrokenCollect(c, byzantine, s, a, cut);
    var x := Recover(c, c.leader, r'.journal[..n]);
    CountFallen(c, byzantine, s.history, r, a.v, n);
    LeaderPast(c, s.history, r, x);
    CollectMoved(c, s, a, r', n);
    AssembleLeader(c, byzantine, s, Fallback(c, s, a, r', [], n), r, x);
  }

  // ---- the leader proposes ----

  lemma BrokenPropose(c: Config, byzantine: set<Id>, s: System, a: Action, cut: nat) returns (r': Replica, n: nat)
    requires c.members != {} && AllSound(s) && a.ProposeNext? && Enabled(c, s, a)
    ensures var r := s.replicas[c.leader]; var e := SelfVote(r, a.cmd); var b := NextBlock(r, a.cmd);
            && r' == VoteForBlock(c, KeysOf(byzantine, s.history + [e]), Extended(r, b), Vote(b.height, b.id, r.id))
            && (n == |r.journal| || |r.journal| < n <= |r'.journal|) && r.journal <= r'.journal
            && Broken(c, byzantine, s, a, cut) == Fallback(c, s, a, r', [e], n)
  {
    var r := s.replicas[c.leader];
    var e, b := SelfVote(r, a.cmd), NextBlock(r, a.cmd);
    var k, vote := KeysOf(byzantine, s.history + [e]), Vote(b.height, b.id, r.id);
    r' := VoteForBlock(c, k, Extended(r, b), vote);
    CountSilent(c, k, Extended(r, b), vote);
    PrefixChain(r.journal, Extended(r, b).journal, r'.journal);
    n := Kept(cut, r.journal, r'.journal);
  }

  lemma ProposeUndone(c: Config, s: System, a: Action, r': Replica, news: seq<Event>)
    requires a.ProposeNext? && c.leader in s.replicas && s.replicas[c.leader].journal <= r'.journal
    requires Tracks(c, s.replicas[c.leader])
    ensures var r := s.replicas[c.leader];
            Fallback(c, s, a, r', news, |r.journal|) ==
            s.(replicas := s.replicas[c.leader := Recover(c, c.leader, r.journal)])
  {
    var r := s.replicas[c.leader];
    CutPrefix(r.journal, r'.journal, r'.journal, |r.journal|);
    Restart(c, c.leader, r.journal, r, VotedUpTo(c, r.journal));
  }

  lemma FallbackProposed(c: Config, s: System, a: Action, r': Replica, e: Event, n: nat)
    requires a.ProposeNext? && c.leader in s.replicas && s.replicas[c.leader].id == c.leader == e.voter
    requires |s.replicas[c.leader].journal| < n <= |r'.journal|
    ensures var r, x := s.replicas[c.leader], Recover(c, c.leader, r'.journal[..n]);
            var s' := Fallback(c, s, a, r', [e], n);
            && Moved(c, s, s', r, x) && s'.history == s.history + [e]
            && s'.proposals == s.proposals + {NextBlock(r, a.cmd)}
  {
  }

  /** The crash falls after the block was recorded. */
  lemma ProposeFallen(c: Config, byzantine: set<Id>, h: seq<Event>, r: Replica, cmd: string, proposals: set<Block>, n: nat)
    requires Setting(c, byzantine) && HistoryOk(c, byzantine, h) && r.id in c.members && r.id !in byzantine
    requires Sound(r) && TreeOk(c, byzantine, h, r) && LockOk(c, byzantine, h, r) && PastOk(c, h, r)
    requires LeaderOk(r, proposals) && MayPropose(c, r) && Tracks(c, r)
    requires var h', b := h + [SelfVote(r, cmd)], NextBlock(r, cmd);
             var r' := VoteForBlock(c, KeysOf(byzantine, h'), Extended(r, b), Vote(b.height, b.id, r.id));
             |r.journal| < n <= |r'.journal|
    ensures var h', b := h + [SelfVote(r, cmd)], NextBlock(r, cmd);
            var r' := VoteForBlock(c, KeysOf(byzantine, h'), Extended(r, b), Vote(b.height, b.id, r.id));
            var x := Recover(c, r.id, r'.journal[..n]);
            && HistoryOk(c, byzantine, h') && Sound(x) && TreeOk(c, byzantine, h', x) && LockOk(c, byzantine, h', x)
            && PastOk(c, h', x) && LeaderOk(x, proposals + {b}) && ExecMoves(r, x) && RunsMove(r, x)
            && r.bExec in x.blocks && x.id == r.id && Tracks(c, x)
  {
    var h', b := h + [SelfVote(r, cmd)], NextBlock(r, cmd);
    var r1, vote := Extended(r, b), Vote(b.height, b.id, r.id);
    SelfVoteIsOk(c, byzantine, h, r, cmd);
    ProposedTree(c, byzantine, h, h', r, b, proposals);
    InsertTracks(c, r, b, r1);
    ExtendedPast(c, h, r, SelfVote(r, cmd), b);
    CountFallen(c, byzantine, h', r1, vote, n);
    var x := Recover(c, r.id, VoteForBlock(c, KeysOf(byzantine, h'), r1, vote).journal[..n]);
    LeaderPast(c, h', r1, x);
    if RunsOk(r.journal, r.bExec) { InsertRuns(r, r1, b); }
  }

  lemma ProposeBroken(c: Config, byzantine: set<Id>, s: System, a: Action, cut: nat)
    requires Inv(c, byzantine, s) && AllSound(s) && a.ProposeNext? && Enabled(c, s, a)
    ensures Goes(c, byzantine, s, Broken(c, byzantine, s, a, cut))
  {
    var r := s.replicas[c.leader];
    var e := SelfVote(r, a.cmd);
    assert NamedOk(c, byzantine, s, c.leader);
    var r', n := BrokenPropose(c, byzantine, s, a, cut);
    if n == |r.journal| {
      ProposeUndone(c, s, a, r', [e]);
      PlainRestart(c, byzantine, s, r, Fallback(c, s, a, r', [e], n));
    } else {
      ProposeFallen(c, byzantine, s.history, r, a.cmd, s.proposals, n);
      FallbackProposed(c, s, a, r', e, n);
      AssembleLeader(c, byzantine, s, Fallback(c, s, a, r', [e], n), r, Recover(c, c.leader, r'.journal[..n]));
    }
  }

  // ---- any step ----

  /** A crash in the middle of any handler, after any number of its effects. */
  lemma BrokenKeeps(c: Config, byzantine: set<Id>, s: System, a: Action, cut: nat)
    requires Inv(c, byzantine, s) && AllSound(s) && Enabled(c, s, a) && !a.Crash?
    ensures Goes(c, byzantine, s, Broken(c, byzantine, s, a, cut))
  {
    match a
    case ProposeNext(_) => ProposeBroken(c, byzantine, s, a, cut);
    case Collect(_) => CollectBroken(c, byzantine, s, a, cut);
    case Deliver(to, p, signed, _) =>
      assert NamedOk(c, byzantine, s, to);
      var r, k := s.replicas[to], KeysOf(byzantine, s.history);
      if !Acceptable(c, k, r, p, signed) {
        RefusedBroken(c, byzantine, s, a, cut);
        PlainRestart(c, byzantine, s, r, Broken(c, byzantine, s, a, cut));
      } else {
        if to == c.leader { LeaderIgnores(c, byzantine, s, p, signed, k); }
        DeliverBroken(c, byzantine, s, a, cut);
      }
  }

  lemma StepKeeps(c: Config, byzantine: set<Id>, s: System, a: Action)
    requires Inv(c, byzantine, s) && AllSound(s) && Enabled(c, s, a)
    ensures Goes(c, byzantine, s, Step(c, byzantine, s, a))
  {
    if a.Crash? {
      BrokenKeeps(c, byzantine, s, a.during, a.cut);
    } else {
      CompleteKeeps(c, byzantine, s, a);
    }
  }
}
