/** The correct replicas, the votes they have signed and the blocks a correct leader has proposed, as a transition
    system. Byzantine members may sign anything; a Byzantine leader may propose anything. A correct replica may crash in
    the middle of a handler, after any number of its effects, and restart from its durable log. */
module HsSystem {
  import opened Options
  import opened HsTypes
  import opened HsSpec
  import opened HsRecovery
  import opened HsHistory

  /** `replicas` are the correct ones; `commits` are the chains that made some replica commit. */
  datatype System = System(replicas: map<Id, Replica>, history: seq<Event>, proposals: set<Block>,
                           commits: seq<(BlockId, BlockId, BlockId)>)

  datatype Action =
    | ProposeNext(cmd: string)
    | Deliver(to: Id, p: Proposal, signed: bool, durable: bool)
    | Collect(v: Vote)
    | Crash(during: Action, cut: nat)

  function VoteOf(e: Event): Vote {
    Vote(Height(e.block), e.block, e.voter)
  }

  function KeysOf(byzantine: set<Id>, h: seq<Event>): Keys {
    Keys(byzantine, set e | e in h :: VoteOf(e))
  }

  function Init(c: Config, byzantine: set<Id>): System {
    System(map r | r in c.members - byzantine :: NewReplica(c, r), [], {}, [])
  }

  predicate AllSound(s: System) {
    forall r :: r in s.replicas ==> Sound(s.replicas[r])
  }

  /** A correct leader signs only what it has proposed. */
  predicate Enabled(c: Config, s: System, a: Action) {
    match a
    case ProposeNext(_) => c.leader in s.replicas && MayPropose(c, s.replicas[c.leader])
    case Deliver(to, p, signed, _) => to in s.replicas && (signed && c.leader in s.replicas ==> p.block in s.proposals)
    case Collect(v) => c.leader in s.replicas
    case Crash(during, _) => !during.Crash? && Enabled(c, s, during)
  }

  /** The vote of the leader for its next block. */
  ghost function SelfVote(r: Replica, cmd: string): Event {
    Event(r.id, NextBlock(r, cmd).id, r.bLock, r.qcHigh.node, r.bLock)
  }

  ghost function Acted(c: Config, byzantine: set<Id>, s: System, a: Action): Replica
    requires c.members != {} && AllSound(s) && Enabled(c, s, a) && !a.Crash?
  {
    match a
    case ProposeNext(cmd) =>
      var r := s.replicas[c.leader];
      Propose(c, KeysOf(byzantine, s.history + [SelfVote(r, cmd)]), r, cmd).0
    case Deliver(to, p, signed, durable) =>
      HandleProposal(c, KeysOf(byzantine, s.history), s.replicas[to], p, signed, durable).0
    case Collect(v) => VoteForBlock(c, KeysOf(byzantine, s.history), s.replicas[c.leader], v)
  }

  function Actor(c: Config, a: Action): Id {
    match a
    case Deliver(to, _, _, _) => to
    case Crash(during, _) => Actor(c, during)
    case _ => c.leader
  }

  /** The vote that an action signs, if any. */
  ghost function NewEvents(c: Config, byzantine: set<Id>, s: System, a: Action): seq<Event>
    requires c.members != {} && AllSound(s) && Enabled(c, s, a) && !a.Crash?
  {
    match a
    case ProposeNext(cmd) => [SelfVote(s.replicas[c.leader], cmd)]
    case Deliver(to, p, signed, durable) =>
      var r := s.replicas[to];
      var (r', v) := HandleProposal(c, KeysOf(byzantine, s.history), r, p, signed, durable);
      if v.None? then [] else [Event(to, p.block.id, r.bLock, r'.qcHigh.node, r'.bLock)]
    case Collect(_) => []
  }

  /** The direct chain below a certified block. */
  function ChainBelow(node: BlockId): (BlockId, BlockId, BlockId) {
    if node.Genesis? || node.parent.Genesis? then (Genesis, Genesis, Genesis)
    else (node.parent.parent, node.parent, node)
  }

  ghost function Complete(c: Config, byzantine: set<Id>, s: System, a: Action): System
    requires c.members != {} && AllSound(s) && Enabled(c, s, a) && !a.Crash?
  {
    var who := Actor(c, a);
    var r' := Acted(c, byzantine, s, a);
    System(s.replicas[who := r'], s.history + NewEvents(c, byzantine, s, a),
           if a.ProposeNext? then s.proposals + {NextBlock(s.replicas[who], a.cmd)} else s.proposals,
           if r'.bExec == s.replicas[who].bExec then s.commits else s.commits + [ChainBelow(r'.qcHigh.node)])
  }

  /** The number of effects on record after a crash. */
  function Kept(cut: nat, before: seq<Effect>, after: seq<Effect>): nat {
    if cut >= |after| || |before| >= |after| then |after| else if cut <= |before| then |before| else cut
  }

  /** Whether what the handler sends may have left the replica: a vote goes out last, a proposal after its block. */
  predicate Left(a: Action, n: nat, before: seq<Effect>, after: seq<Effect>) {
    if a.Deliver? then n == |after| else n > |before|
  }

  /** The system when replica `who`, on its way to `r'`, has crashed with the first `n` effects on record and has
      restarted. */
  ghost function Fallback(c: Config, s: System, a: Action, r': Replica, news: seq<Event>, n: nat): System
    requires Actor(c, a) in s.replicas && n <= |r'.journal|
  {
    var who := Actor(c, a);
    var r, x := s.replicas[who], Recover(c, who, r'.journal[..n]);
    var left := Left(a, n, r.journal, r'.journal);
    System(s.replicas[who := x], if left then s.history + news else s.history,
           if a.ProposeNext? && left then s.proposals + {NextBlock(r, a.cmd)} else s.proposals,
           if x.bExec == r.bExec then s.commits else s.commits + [ChainBelow(x.qcHigh.node)])
  }

  ghost function Broken(c: Config, byzantine: set<Id>, s: System, a: Action, cut: nat): System
    requires c.members != {} && AllSound(s) && Enabled(c, s, a) && !a.Crash?
  {
    var r' := Acted(c, byzantine, s, a);
    var n := Kept(cut, s.replicas[Actor(c, a)].journal, r'.journal);
    Fallback(c, s, a, r', NewEvents(c, byzantine, s, a), n)
  }

  ghost function Step(c: Config, byzantine: set<Id>, s: System, a: Action): System
    requires c.members != {} && AllSound(s) && Enabled(c, s, a)
  {
    if a.Crash? then Broken(c, byzantine, s, a.during, a.cut) else Complete(c, byzantine, s, a)
  }
}
