/** A correct leader that does not crash never skips a height, so that agreement needs no further condition. */
module HsLeader {
  import opened Options
  import opened HsTypes
  import opened HsSpec
  import opened HsRecovery
  import opened HsDurable
  import opened HsHistory
  import opened HsSystem
  import opened HsInvariant
  import opened HsSafety
  import opened HsSteps
  import opened HsCrash
  import opened HsTheorems

  predicate NextAbove(b: BlockId) {
    !b.Genesis? && Height(b) == Height(b.parent) + 1
  }

  /** No block of the tree is above the head. */
  predicate HeadHighest(r: Replica) {
    forall b :: b in r.blocks ==> Height(b) <= Height(r.head)
  }

  predicate Unbroken(c: Config, s: System) {
    && c.leader in s.replicas && HeadHighest(s.replicas[c.leader])
    && (forall p :: p in s.proposals ==> NextAbove(p.id)) && GapFree(s.history)
  }

  lemma NextIsAbove(r: Replica, cmd: string)
    requires Sound(r) && HeadHighest(r)
    ensures NextAbove(NextBlock(r, cmd).id)
  {
    assert r.head in r.blocks.Keys;
  }

  lemma ProposeHead(c: Config, byzantine: set<Id>, h: seq<Event>, r: Replica, cmd: string, proposals: set<Block>)
    requires Setting(c, byzantine) && HistoryOk(c, byzantine, h) && r.id in c.members && r.id !in byzantine
    requires Sound(r) && TreeOk(c, byzantine, h, r) && LockOk(c, byzantine, h, r) && PastOk(c, h, r)
    requires LeaderOk(r, proposals) && MayPropose(c, r) && HeadHighest(r)
    ensures HeadHighest(Propose(c, KeysOf(byzantine, h + [SelfVote(r, cmd)]), r, cmd).0)
  {
    var b, h' := NextBlock(r, cmd), h + [SelfVote(r, cmd)];
    SelfVoteIsOk(c, byzantine, h, r, cmd);
    ProposedTree(c, byzantine, h, h', r, b, proposals);
    assert HeadHighest(Extended(r, b));
    CountKeeps(c, byzantine, h', Extended(r, b), Vote(b.height, b.id, r.id));
  }

  lemma LeaderMoves(c: Config, s: System, s': System, r': Replica, news: seq<Event>, b: Block)
    requires Unbroken(c, s) && HeadHighest(r') && NextAbove(b.id) && forall e :: e in news ==> e.block == b.id
    requires s'.replicas == s.replicas[c.leader := r'] && s'.history == s.history + news
    requires s'.proposals == s.proposals + {b}
    ensures Unbroken(c, s')
  {
  }

  lemma ProposeUnbroken(c: Config, byzantine: set<Id>, s: System, a: Action)
    requires Inv(c, byzantine, s) && AllSound(s) && Unbroken(c, s) && a.ProposeNext? && Enabled(c, s, a)
    ensures Unbroken(c, Complete(c, byzantine, s, a))
  {
    var r := s.replicas[c.leader];
    assert NamedOk(c, byzantine, s, c.leader);
    NextIsAbove(r, a.cmd);
    ProposeHead(c, byzantine, s.history, r, a.cmd, s.proposals);
    ProposeMoves(c, byzantine, s, a, Propose(c, KeysOf(byzantine, s.history + [SelfVote(r, a.cmd)]), r, a.cmd).0);
  }

  lemma ProposeMoves(c: Config, byzantine: set<Id>, s: System, a: Action, r': Replica)
    requires c.members != {} && AllSound(s) && a.ProposeNext? && Enabled(c, s, a) && s.replicas[c.leader].id == c.leader
    requires var r := s.replicas[c.leader];
             && r' == Propose(c, KeysOf(byzantine, s.history + [SelfVote(r, a.cmd)]), r, a.cmd).0
             && NextAbove(NextBlock(r, a.cmd).id)
    requires Unbroken(c, s) && HeadHighest(r')
    ensures Unbroken(c, Complete(c, byzantine, s, a))
  {
    var r := s.replicas[c.leader];
    ProposeShape(c, byzantine, s, a);
    LeaderMoves(c, s, Complete(c, byzantine, s, a), r', [SelfVote(r, a.cmd)], NextBlock(r, a.cmd));
  }

  lemma CollectUnbroken(c: Config, byzantine: set<Id>, s: System, a: Action)
    requires Inv(c, byzantine, s) && AllSound(s) && Unbroken(c, s) && a.Collect? && Enabled(c, s, a)
    ensures Unbroken(c, Complete(c, byzantine, s, a))
  {
    assert NamedOk(c, byzantine, s, c.leader);
    CountKeeps(c, byzantine, s.history, s.replicas[c.leader], a.v);
    CollectShape(c, byzantine, s, a);
  }

  /** Followers vote only for what the leader has proposed. */
  lemma VotesUnbroken(c: Config, byzantine: set<Id>, s: System, a: Action)
    requires c.members != {} && AllSound(s) && Unbroken(c, s) && a.Deliver? && Enabled(c, s, a)
    ensures GapFree(s.history + NewEvents(c, byzantine, s, a))
  {
    var news := NewEvents(c, byzantine, s, a);
    forall e | e in news ensures NextAbove(e.block) {
      assert a.p.block in s.proposals;
    }
  }

  lemma FollowerShape(c: Config, byzantine: set<Id>, s: System, a: Action, cut: nat)
    requires c.members != {} && AllSound(s) && a.Deliver? && Enabled(c, s, a) && a.to != c.leader && c.leader in s.replicas
    ensures var news := NewEvents(c, byzantine, s, a); var s1, s2 := Complete(c, byzantine, s, a), Broken(c, byzantine, s, a, cut);
            && c.leader in s1.replicas && s1.replicas[c.leader] == s.replicas[c.leader]
            && c.leader in s2.replicas && s2.replicas[c.leader] == s.replicas[c.leader]
            && s1.proposals == s.proposals == s2.proposals
            && s1.history == s.history + news && (s2.history == s.history || s2.history == s.history + news)
  {
  }

  lemma DeliverUnbroken(c: Config, byzantine: set<Id>, s: System, a: Action)
    requires Inv(c, byzantine, s) && AllSound(s) && Unbroken(c, s) && a.Deliver? && Enabled(c, s, a)
    ensures Unbroken(c, Complete(c, byzantine, s, a))
  {
    if a.to == c.leader {
      LeaderIgnores(c, byzantine, s, a.p, a.signed, KeysOf(byzantine, s.history));
      RefusedShape(c, byzantine, s, a);
    } else {
      VotesUnbroken(c, byzantine, s, a);
      FollowerShape(c, byzantine, s, a, 0);
    }
  }

  lemma FallUnbroken(c: Config, byzantine: set<Id>, s: System, a: Action, cut: nat)
    requires c.members != {} && AllSound(s) && Unbroken(c, s) && a.Deliver? && Enabled(c, s, a) && a.to != c.leader
    ensures Unbroken(c, Broken(c, byzantine, s, a, cut))
  {
    VotesUnbroken(c, byzantine, s, a);
    FollowerShape(c, byzantine, s, a, cut);
  }

  lemma StepUnbroken(c: Config, byzantine: set<Id>, s: System, a: Action)
    requires Inv(c, byzantine, s) && AllSound(s) && Unbroken(c, s) && Enabled(c, s, a)
    requires !(a.Crash? && Actor(c, a) == c.leader)
    ensures Unbroken(c, Step(c, byzantine, s, a))
  {
    match a
    case ProposeNext(_) => ProposeUnbroken(c, byzantine, s, a);
    case Collect(_) => CollectUnbroken(c, byzantine, s, a);
    case Deliver(_, _, _, _) => DeliverUnbroken(c, byzantine, s, a);
    case Crash(during, cut) => FallUnbroken(c, byzantine, s, during, cut);
  }

  lemma {:induction false} LeaderUnbroken(c: Config, byzantine: set<Id>, run: seq<Action>)
    requires Setting(c, byzantine) && byzantine <= c.members && Exec(c, byzantine, run).Some?
    requires c.leader in c.members - byzantine && Steady(c, run, c.leader)
    ensures Unbroken(c, Exec(c, byzantine, run).value)
    decreases |run|
  {
    if run != [] {
      var before, a := run[..|run| - 1], run[|run| - 1];
      LeaderUnbroken(c, byzantine, before);
      RunKeeps(c, byzantine, before);
      StepUnbroken(c, byzantine, Exec(c, byzantine, before).value, a);
    }
  }

  /** Under a correct leader that does not crash, whatever the other members do and wherever the other replicas crash,
      the committed blocks of two correct replicas are prefixes of one another. */
  lemma CorrectLeaderAgrees(c: Config, byzantine: set<Id>, run: seq<Action>, r1: Id, r2: Id)
    requires Setting(c, byzantine) && byzantine <= c.members && Exec(c, byzantine, run).Some?
    requires c.leader in c.members - byzantine && Steady(c, run, c.leader)
    requires var s := Exec(c, byzantine, run).value; r1 in s.replicas && r2 in s.replicas
    ensures var s := Exec(c, byzantine, run).value;
            s.replicas[r1].committed <= s.replicas[r2].committed || s.replicas[r2].committed <= s.replicas[r1].committed
  {
    LeaderUnbroken(c, byzantine, run);
    GapFreeIsTight(c, byzantine, run);
    Agreement(c, byzantine, run, r1, r2);
  }
}
