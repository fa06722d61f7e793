/** Which commands a replica has run, against the commands of the branch it has committed. They are the same if and only
    if no crash of the replica fell between the record of a certificate and the last command that this certificate
    commits. */
module HsExact {
  import opened Options
  import opened HsTypes
  import opened HsSpec
  import opened HsRecovery
  import opened HsDurable
  import opened HsHistory
  import opened HsSystem
  import opened HsInvariant
  import opened HsSafety
  import opened HsSteps
  import opened HsCrash
  import opened HsTheorems

  // ---- commands that were run ----

  /** The commands that a journal has run. */
  function RunsOf(j: seq<Effect>): seq<Effect>
    decreases |j|
  {
    if j == [] then []
    else RunsOf(j[..|j| - 1]) + if j[|j| - 1].Run? then [j[|j| - 1]] else []
  }

  lemma {:induction false} RunsConcat(a: seq<Effect>, b: seq<Effect>)
    ensures RunsOf(a + b) == RunsOf(a) + RunsOf(b)
    decreases |b|
  {
    if b == [] {
      assert a + b == a && RunsOf(a) + [] == RunsOf(a);
    } else {
      var front := b[..|b| - 1];
      assert (a + b)[..|a + b| - 1] == a + front;
      RunsConcat(a, front);
      Assoc(RunsOf(a), RunsOf(front), if b[|b| - 1].Run? then [b[|b| - 1]] else []);
    }
  }

  lemma {:induction false} AllRuns(j: seq<Effect>)
    requires forall e :: e in j ==> e.Run?
    ensures RunsOf(j) == j
    decreases |j|
  {
    if j != [] { AllRuns(j[..|j| - 1]); }
  }

  predicate Runless(j: seq<Effect>) {
    forall e :: e in j ==> !e.Run?
  }

  lemma {:induction false} NoRuns(j: seq<Effect>)
    ensures Runless(j) <==> RunsOf(j) == []
    decreases |j|
  {
    if j != [] {
      NoRuns(j[..|j| - 1]);
      assert j == j[..|j| - 1] + [j[|j| - 1]];
    }
  }

  lemma RunsSame(j: seq<Effect>, tail: seq<Effect>)
    requires Runless(tail)
    ensures RunsOf(j + tail) == RunsOf(j)
  {
    RunsConcat(j, tail);
    NoRuns(tail);
  }

  // ---- commands that are due ----

  /** The command of a block, if it carries one. */
  function Command(b: BlockId): seq<Effect> {
    if b.Genesis? || b.cmd == "" then [] else [Run(b)]
  }

  /** The commands of the branch from above `stop` up to `b`. */
  function DueSince(b: BlockId, stop: BlockId): seq<Effect> {
    if b == stop || b.Genesis? then [] else DueSince(b.parent, stop) + Command(b)
  }

  /** All commands of the branch of `b`. */
  function Due(b: BlockId): seq<Effect> {
    if b.Genesis? then [] else Due(b.parent) + Command(b)
  }

  lemma {:induction false} DueSplits(b: BlockId, a: BlockId)
    requires Extends(b, a)
    ensures Due(b) == Due(a) + DueSince(b, a)
    decreases b
  {
    if b == a {
      assert Due(a) + [] == Due(a);
    } else {
      DueSplits(b.parent, a);
      Assoc(Due(a), DueSince(b.parent, a), Command(b));
    }
  }

  /** The blocks carry the commands of their identities. */
  predicate Honest(blocks: map<BlockId, Block>) {
    forall b :: b in blocks && !b.Genesis? ==> blocks[b].cmd == b.cmd
  }

  /** What a commit runs is what is due between the old and the new committed block. */
  lemma {:induction false} SpanIsDue(r: Replica, b: BlockId, stop: BlockId)
    requires Sound(r) && Honest(r.blocks) && b in r.blocks && Extends(b, stop)
    ensures Commands(r.blocks, Span(r.blocks, b, stop)) == DueSince(b, stop)
    decreases b
  {
    if b != stop {
      SpanIsDue(r, b.parent, stop);
      var below := Span(r.blocks, b.parent, stop);
      assert (below + [b])[..|below|] == below;
    }
  }

  // ---- a handler that completes ----

  /** Moving up a branch, the handler runs exactly what became due. */
  predicate RunsDue(r: Replica, r': Replica) {
    Extends(r'.bExec, r.bExec) ==> RunsOf(r'.journal) == RunsOf(r.journal) + DueSince(r'.bExec, r.bExec)
  }

  lemma CommitRunsAll(r: Replica, gp: BlockId)
    ensures RunsOf(r.journal + CommitTail(r, gp)) == RunsOf(r.journal) + Commands(r.blocks, Span(r.blocks, gp, r.bExec))
  {
    var span := Span(r.blocks, gp, r.bExec);
    var cmds, last := Commands(r.blocks, span), Write(AppliedRecord(if span == [] then r.bExec else span[|span| - 1]));
    RunsConcat(r.journal, cmds + [last]);
    RunsSame(cmds, [last]);
    CommandsRun(r.blocks, span);
    AllRuns(cmds);
  }

  lemma TakenRunsDue(c: Config, k: Keys, r: Replica, qc: QC)
    requires c.members != {} && Sound(r) && Honest(r.blocks)
    ensures RunsDue(r, OnNewQC(c, k, r, qc))
  {
    var r' := OnNewQC(c, k, r, qc);
    if !QCValid(c, k, r.blocks, qc) || qc.height <= r.qcHigh.height {
      assert RunsOf(r.journal) + [] == RunsOf(r.journal);
    } else {
      var r1 := r.(qcHigh := qc, journal := r.journal + [Write(QCRecord(qc))]);
      RunsSame(r.journal, [Write(QCRecord(qc))]);
      FoldFacts(r1, qc.node);
      FoldJournal(r1, qc.node);
      if r'.bExec == r.bExec {
        assert r1.journal + [] == r1.journal && RunsOf(r.journal) + [] == RunsOf(r.journal);
      } else if Extends(r'.bExec, r.bExec) {
        CommitRunsAll(r1, r'.bExec);
        SpanIsDue(r, r'.bExec, r.bExec);
      }
    }
  }

  lemma CountRunsDue(c: Config, k: Keys, r: Replica, v: Vote)
    requires c.members != {} && Sound(r) && Honest(r.blocks)
    ensures RunsDue(r, VoteForBlock(c, k, r, v))
  {
    VoteCases(c, k, r, v);
    var r' := VoteForBlock(c, k, r, v);
    if r' == r.(votes := r'.votes) {
      assert RunsOf(r.journal) + [] == RunsOf(r.journal);
    } else {
      TakenRunsDue(c, k, Counted(r, v), QC(v.node, v.height, AllVoters(r, v)));
    }
  }

  lemma HonestInsert(blocks: map<BlockId, Block>, b: Block)
    requires Honest(blocks) && Content(b) == Some(b.id)
    ensures Honest(blocks[b.id := b])
  {
  }

  lemma CastRunsNothing(r: Replica, b: Block, durable: bool)
    ensures var r' := CastVote(r, b, durable).0; RunsOf(r'.journal) == RunsOf(r.journal) && r'.bExec == r.bExec
  {
    RunsSame(r.journal, [Write(VotedRecord(b.height)), Send(Vote(b.height, b.id, r.id))]);
  }

  lemma DeliverRunsDue(c: Config, k: Keys, r: Replica, b: Block, durable: bool)
    requires c.members != {} && Sound(r) && Honest(r.blocks) && Content(b) == Some(b.id) && b.parent.value in r.blocks
    ensures RunsDue(r, CastVote(OnNewQC(c, k, Insert(r, b), b.justify), b, durable).0)
  {
    var r1 := Insert(r, b);
    HonestInsert(r.blocks, b);
    RunsSame(r.journal, [Write(BlockRecord(b))]);
    TakenRunsDue(c, k, r1, b.justify);
    CastRunsNothing(OnNewQC(c, k, r1, b.justify), b, durable);
  }

  lemma ProposeRunsDue(c: Config, k: Keys, r: Replica, cmd: string)
    requires c.members != {} && Sound(r) && Honest(r.blocks) && MayPropose(c, r)
    ensures RunsDue(r, Propose(c, k, r, cmd).0)
  {
    var b := NextBlock(r, cmd);
    HonestInsert(r.blocks, b);
    RunsSame(r.journal, [Write(BlockRecord(b))]);
    ExtendedSound(r, b);
    CountRunsDue(c, k, Extended(r, b), Vote(b.height, b.id, r.id));
  }

  lemma ActedRunsDue(c: Config, byzantine: set<Id>, s: System, a: Action)
    requires c.members != {} && AllSound(s) && Enabled(c, s, a) && !a.Crash?
    requires var r := s.replicas[Actor(c, a)]; r.id == Actor(c, a) && Honest(r.blocks)
    ensures RunsDue(s.replicas[Actor(c, a)], Acted(c, byzantine, s, a))
  {
    var r := s.replicas[Actor(c, a)];
    match a
    case Collect(v) => CountRunsDue(c, KeysOf(byzantine, s.history), r, v);
    case ProposeNext(cmd) => ProposeRunsDue(c, KeysOf(byzantine, s.history + [SelfVote(r, cmd)]), r, cmd);
    case Deliver(_, p, signed, durable) =>
      if Acceptable(c, KeysOf(byzantine, s.history), r, p, signed) {
        DeliverRunsDue(c, KeysOf(byzantine, s.history), r, p.block, durable);
        ActedDeliver(c, byzantine, s, a);
      } else {
        RefusedShape(c, byzantine, s, a);
        assert RunsOf(r.journal) + [] == RunsOf(r.journal);
      }
  }
}
