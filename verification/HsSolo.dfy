/** The smallest run in which a restart loses a command: one member, which is correct and leads, three proposals, and a
    crash right after the certificate of the third one has been recorded. */
module HsSolo {
  import opened Options
  import opened HsTypes
  import opened HsSpec
  import opened HsReplica
  import opened HsRecovery
  import opened HsDurable
  import opened HsHistory
  import opened HsSystem
  import opened HsInvariant
  import opened HsSafety
  import opened HsSteps
  import opened HsCrash
  import opened HsTheorems
  import opened HsLeader
  import opened HsExact
  import opened HsSkips

  const ALONE: Config := Config({0}, 0)

  lemma AloneIsSetting()
    ensures Setting(ALONE, {}) && Quorum(ALONE) == 1
  {
    assert |ALONE.members| == 1;
  }

  /** A leader whose last block is certified and highest. */
  predicate Ready(r: Replica) {
    && r.id == 0 && Sound(r) && r.qcHigh.node == r.head && r.qcHigh.height == Height(r.head) && HeadHighest(r)
    && (forall b :: b in r.votes ==> b in r.blocks) && (forall b :: b in r.qcFormed ==> b in r.blocks)
  }

  function Next(r: Replica, cmd: string): Block {
    Block(Digest(0, Height(r.head) + 1, r.head, cmd), 0, Height(r.head) + 1, Some(r.head), cmd, r.qcHigh)
  }

  function Certificate(b: Block): QC {
    QC(b.id, b.height, {0})
  }

  /** The block is in the tree and its certificate, formed by the leader's own vote, is on record. */
  function Formed(r: Replica, b: Block): Replica {
    r.(blocks := r.blocks[b.id := b], head := b.id, votes := r.votes[b.id := {0}], qcFormed := r.qcFormed + {b.id},
       qcHigh := Certificate(b), journal := r.journal + [Write(BlockRecord(b)), Write(QCRecord(Certificate(b)))])
  }

  lemma NextIsNext(r: Replica, cmd: string)
    requires Ready(r)
    ensures NextBlock(r, cmd) == Next(r, cmd) && Next(r, cmd).id !in r.blocks
  {
    HighestIsMax(r.blocks.Keys, r.head);
  }

  lemma FormedSound(r: Replica, b: Block)
    requires Ready(r) && b == Next(r, b.cmd) && b.id !in r.blocks
    ensures Sound(Formed(r, b)) && Ready(Formed(r, b))
  {
  }

  lemma FoldReady(r: Replica, node: BlockId)
    requires Ready(r)
    ensures Ready(Fold(r, node))
  {
    FoldFacts(r, node);
  }

  lemma QuorumOfOne(b: Block, k: Keys, blocks: map<BlockId, Block>)
    requires Vote(b.height, b.id, 0) in k.signed && !b.id.Genesis? && b.id in blocks && blocks[b.id] == b
    ensures ALONE.members != {} && QCValid(ALONE, k, blocks, Certificate(b))
  {
    AloneIsSetting();
    assert |{0}| == 1;
  }

  /** The first vote for a new block is a quorum. */
  lemma FirstVote(r: Replica, b: Block, k: Keys)
    requires ALONE.members != {} && Quorum(ALONE) == 1 && Sound(r) && b.id in r.blocks && b.height == Height(b.id)
    requires b.id !in r.votes && b.id !in r.qcFormed && Vote(b.height, b.id, 0) in k.signed
    ensures var r1 := r.(votes := r.votes[b.id := {0}], qcFormed := r.qcFormed + {b.id});
            VoteForBlock(ALONE, k, r, Vote(b.height, b.id, 0)) == OnNewQC(ALONE, k, r1, Certificate(b))
  {
    assert {} + {0} == {0} && |{0}| == 1;
  }

  lemma JournalOfTwo(j: seq<Effect>, x: Effect, y: Effect)
    ensures (j + [x]) + [y] == j + [x, y]
  {
  }

  /** The leader's own vote completes the quorum. */
  lemma SelfCertified(r: Replica, b: Block, k: Keys)
    requires Ready(r) && b == Next(r, b.cmd) && b.id !in r.blocks && Vote(b.height, b.id, 0) in k.signed
    ensures ALONE.members != {} && Sound(Extended(r, b)) && Sound(Formed(r, b))
    ensures VoteForBlock(ALONE, k, Extended(r, b), Vote(b.height, b.id, 0)) == Fold(Formed(r, b), b.id)
  {
    AloneIsSetting();
    FormedSound(r, b);
    ExtendedSound(r, b);
    FirstVote(Extended(r, b), b, k);
    QuorumOfOne(b, k, r.blocks[b.id := b]);
    JournalOfTwo(r.journal, Write(BlockRecord(b)), Write(QCRecord(Certificate(b))));
  }

  lemma ProposeAlone(r: Replica, cmd: string, h: seq<Event>)
    requires Ready(r)
    ensures ALONE.members != {} && MayPropose(ALONE, r)
    ensures Next(r, cmd).id !in r.blocks && Sound(Formed(r, Next(r, cmd)))
    ensures var r' := Propose(ALONE, KeysOf({}, h + [SelfVote(r, cmd)]), r, cmd).0;
            r' == Fold(Formed(r, Next(r, cmd)), Next(r, cmd).id) && Ready(r')
  {
    AloneIsSetting();
    NextIsNext(r, cmd);
    var b, e := Next(r, cmd), SelfVote(r, cmd);
    FormedSound(r, b);
    assert VoteOf(e) == Vote(b.height, b.id, 0) && e in h + [e];
    SelfCertified(r, b, KeysOf({}, h + [e]));
    FoldReady(Formed(r, b), b.id);
  }

  // ---- one more proposal ----

  lemma ExecOne(run: seq<Action>, a: Action, s: System)
    requires Setting(ALONE, {}) && Exec(ALONE, {}, run) == Some(s) && AllSound(s) && Enabled(ALONE, s, a)
    ensures Exec(ALONE, {}, run + [a]) == Some(Step(ALONE, {}, s, a))
  {
    assert (run + [a])[..|run|] == run;
  }

  /** A proposal replaces the leader by what its handler leaves. */
  lemma ProposeStep(s: System, r: Replica, cmd: string) returns (s': System, r': Replica)
    requires s.replicas == map[0 := r] && Ready(r)
    ensures Setting(ALONE, {}) && AllSound(s) && Enabled(ALONE, s, ProposeNext(cmd))
    ensures s' == Step(ALONE, {}, s, ProposeNext(cmd)) && s'.replicas == map[0 := r']
    ensures r' == Acted(ALONE, {}, s, ProposeNext(cmd))
    ensures Sound(Formed(r, Next(r, cmd))) && r' == Fold(Formed(r, Next(r, cmd)), Next(r, cmd).id) && Ready(r')
  {
    AloneIsSetting();
    ProposeAlone(r, cmd, s.history);
    s', r' := ProposeShaped(ALONE, s, r, cmd);
  }

  lemma ProposeShaped(c: Config, s: System, r: Replica, cmd: string) returns (s': System, r': Replica)
    requires c.members != {} && c.leader == 0 && s.replicas == map[0 := r] && Sound(r) && r.id == 0 && MayPropose(c, r)
    ensures AllSound(s) && Enabled(c, s, ProposeNext(cmd)) && s' == Step(c, {}, s, ProposeNext(cmd))
    ensures s'.replicas == map[0 := r'] && r' == Acted(c, {}, s, ProposeNext(cmd))
    ensures r' == Propose(c, KeysOf({}, s.history + [SelfVote(r, cmd)]), r, cmd).0
  {
    ProposeShape(c, {}, s, ProposeNext(cmd));
    s' := Step(c, {}, s, ProposeNext(cmd));
    r' := Propose(c, KeysOf({}, s.history + [SelfVote(r, cmd)]), r, cmd).0;
    OnlyOne(r, r');
  }

  lemma OnlyOne(r: Replica, r': Replica)
    ensures map[0 := r][0 := r'] == map[0 := r']
  {
  }

  /** Near the root a certificate commits nothing. */
  lemma FoldQuiet(r: Replica, node: BlockId)
    requires Sound(r) && !node.Genesis? && (node.parent.Genesis? || node.parent.parent.Genesis?)
    ensures Fold(r, node) == r.(bLock := Fold(r, node).bLock)
  {
  }

  /** The first or the second proposal. */
  lemma ProposeQuietly(run: seq<Action>, s: System, r: Replica, cmd: string) returns (s': System, r': Replica)
    requires Setting(ALONE, {}) && Exec(ALONE, {}, run) == Some(s) && s.replicas == map[0 := r] && Ready(r)
    requires r.head.Genesis? || r.head.parent.Genesis?
    ensures Exec(ALONE, {}, run + [ProposeNext(cmd)]) == Some(s') && s'.replicas == map[0 := r'] && Ready(r')
    ensures var b := Next(r, cmd);
            && r'.head == b.id && r'.blocks == r.blocks[b.id := b] && r'.bExec == r.bExec
            && r'.journal == r.journal + [Write(BlockRecord(b)), Write(QCRecord(Certificate(b)))]
  {
    s', r' := ProposeStep(s, r, cmd);
    ExecOne(run, ProposeNext(cmd), s);
    FoldQuiet(Formed(r, Next(r, cmd)), Next(r, cmd).id);
  }

  // ---- three proposals ----

  /** Two certified blocks above the root, the lower one with command `a`, and nothing run. */
  predicate Deep(r: Replica, a: string) {
    && Ready(r) && !r.head.Genesis? && r.head.parent == Digest(0, 1, Genesis, a) && r.head.parent in r.blocks
    && r.blocks[r.head].justify.node == r.head.parent && r.blocks[r.head.parent].justify.node == Genesis
    && r.blocks[r.head.parent].cmd == a && r.bExec.Genesis? && Runless(r.journal) && |r.journal| == 4
  }

  function Proposals(cmds: seq<string>): seq<Action> {
    if cmds == [] then [] else [ProposeNext(cmds[0])] + Proposals(cmds[1..])
  }

  lemma TwoProposals(a: string, b: string) returns (run: seq<Action>, s: System, r: Replica)
    ensures run == Proposals([a, b]) && Steady(ALONE, run, 0)
    ensures Setting(ALONE, {}) && Exec(ALONE, {}, run) == Some(s) && s.replicas == map[0 := r] && Deep(r, a)
  {
    AloneIsSetting();
    var s1, r1 := OneProposal(a);
    s, r := SecondProposal([ProposeNext(a)], s1, r1, a, b);
    run := Proposals([a, b]);
    ProposalsOfTwo(a, b);
  }

  lemma SecondProposal(run: seq<Action>, s1: System, r1: Replica, a: string, b: string) returns (s: System, r: Replica)
    requires Setting(ALONE, {}) && Exec(ALONE, {}, run) == Some(s1) && s1.replicas == map[0 := r1] && Shallow(r1, a)
    ensures Exec(ALONE, {}, run + [ProposeNext(b)]) == Some(s) && s.replicas == map[0 := r] && Deep(r, a)
  {
    s, r := ProposeQuietly(run, s1, r1, b);
    TwoAreDeep(r1, r, a, b);
  }

  lemma OneProposal(a: string) returns (s: System, r: Replica)
    requires Setting(ALONE, {})
    ensures Exec(ALONE, {}, [ProposeNext(a)]) == Some(s) && s.replicas == map[0 := r] && Shallow(r, a)
  {
    var s0, r0 := Start();
    s, r := ProposeQuietly([], s0, r0, a);
    assert [] + [ProposeNext(a)] == [ProposeNext(a)];
  }

  /** After the first proposal. */
  predicate Shallow(r: Replica, a: string) {
    && Ready(r) && r.head == Digest(0, 1, Genesis, a) && r.blocks[r.head].justify.node == Genesis
    && r.blocks[r.head].cmd == a && r.bExec.Genesis? && Runless(r.journal) && |r.journal| == 2
  }

  lemma ProposalsOfTwo(a: string, b: string)
    ensures Proposals([a, b]) == [ProposeNext(a)] + [ProposeNext(b)] && Steady(ALONE, Proposals([a, b]), 0)
  {
    assert [a, b][1..] == [b] && [b][1..] == [];
    assert Proposals([]) == [] && Proposals([b]) == [ProposeNext(b)] + Proposals([b][1..]);
    assert Proposals([a, b]) == [ProposeNext(a)] + Proposals([a, b][1..]);
  }

  lemma Start() returns (s: System, r: Replica)
    ensures Setting(ALONE, {}) && Exec(ALONE, {}, []) == Some(s) && s.replicas == map[0 := r] && Ready(r)
    ensures r.head.Genesis? && r.bExec.Genesis? && r.journal == [] && r.qcHigh.node == Genesis
  {
    AloneIsSetting();
    s, r := Init(ALONE, {}), NewReplica(ALONE, 0);
    assert ALONE.members - {} == {0};
    assert s.replicas == map[0 := r];
  }

  lemma TwoAreDeep(r1: Replica, r2: Replica, a: string, b: string)
    requires Shallow(r1, a) && Ready(r2)
    requires var y := Next(r1, b);
             && r2.head == y.id && r2.blocks == r1.blocks[y.id := y] && r2.bExec == r1.bExec
             && r2.journal == r1.journal + [Write(BlockRecord(y)), Write(QCRecord(Certificate(y)))]
    ensures Deep(r2, a)
  {
  }

  lemma CommitOne(r: Replica, x: BlockId)
    requires r.bExec.Genesis? && !x.Genesis? && x.parent.Genesis? && x in r.blocks && r.blocks[x].cmd != ""
    ensures var r' := CommitUpTo(r, x);
            r'.bExec == x && r'.journal == r.journal + [Run(x), Write(AppliedRecord(x))]
  {
    assert Span(r.blocks, x, Genesis) == [x];
    assert [x][..0] == [] && Commands(r.blocks, [x]) == [Run(x)];
    Assoc(r.journal, [Run(x)], [Write(AppliedRecord(x))]);
    assert [Run(x)] + [Write(AppliedRecord(x))] == [Run(x), Write(AppliedRecord(x))];
  }

  /** Three blocks above the root in a direct chain: the certificate of the third commits the first. */
  lemma FoldCommits(f: Replica, node: BlockId)
    requires Sound(f) && node in f.blocks && !node.Genesis? && !node.parent.Genesis? && !node.parent.parent.Genesis?
    requires node.parent.parent.parent.Genesis? && f.bExec.Genesis? && Height(node.parent.parent) > 0
    requires f.blocks[node].justify.node == node.parent && f.blocks[node.parent].justify.node == node.parent.parent
    requires f.blocks[node.parent.parent].cmd != ""
    ensures var x := node.parent.parent; var r' := Fold(f, node);
            r'.bExec == x && r'.journal == f.journal + [Run(x), Write(AppliedRecord(x))]
  {
    CommitOne(f, node.parent.parent);
    CommitOne(f.(bLock := node.parent), node.parent.parent);
  }

  /** The third certificate commits the lower block. */
  lemma LastCommits(r: Replica, a: string, d: string)
    requires Deep(r, a) && a != "" && Sound(Formed(r, Next(r, d)))
    ensures var z, first := Next(r, d), Digest(0, 1, Genesis, a);
            var full := Fold(Formed(r, z), z.id);
            && full.bExec == first
            && full.journal == Formed(r, z).journal + [Run(first), Write(AppliedRecord(first))]
  {
    NextIsNext(r, d);
    FoldCommits(Formed(r, Next(r, d)), Next(r, d).id);
  }

  /** A third proposal is cut short after its block and its certificate have been recorded. What it would have left: the
      certificate is effect number 5, the command number 6. */
  lemma LastShape(s: System, r: Replica, a: string, d: string) returns (full: Replica)
    requires s.replicas == map[0 := r] && Deep(r, a) && a != ""
    ensures Setting(ALONE, {}) && AllSound(s) && Enabled(ALONE, s, ProposeNext(d))
    ensures full == Acted(ALONE, {}, s, ProposeNext(d)) && full.bExec == Digest(0, 1, Genesis, a)
    ensures |full.journal| == 8 && full.journal[5].Write? && full.journal[5].rec.QCRecord? && full.journal[6].Run?
    ensures Runless(full.journal[..6])
  {
    var s', r' := ProposeStep(s, r, d);
    LastCommits(r, a, d);
    full := r';
    var z, first := Next(r, d), Digest(0, 1, Genesis, a);
    EightEffects(r.journal, Write(BlockRecord(z)), Write(QCRecord(Certificate(z))), Run(first),
                 Write(AppliedRecord(first)), full.journal);
  }

  lemma EightEffects(j: seq<Effect>, x: Effect, y: Effect, z: Effect, u: Effect, j': seq<Effect>)
    requires |j| == 4 && Runless(j) && !x.Run? && !y.Run? && j' == (j + [x, y]) + [z, u]
    ensures |j'| == 8 && j'[5] == y && j'[6] == z && Runless(j'[..6])
  {
    assert j'[..6] == j + [x, y];
  }

  /** What the crash leaves of it. */
  lemma LosingLeaves(s: System, r: Replica, a: string, d: string, full: Replica)
    requires s.replicas == map[0 := r] && Deep(r, a) && Tracks(ALONE, r)
    requires Setting(ALONE, {}) && AllSound(s) && Enabled(ALONE, s, ProposeNext(d))
    requires full == Acted(ALONE, {}, s, ProposeNext(d)) && full.bExec == Digest(0, 1, Genesis, a)
    requires |full.journal| == 8 && full.journal[5].Write? && full.journal[5].rec.QCRecord? && Runless(full.journal[..6])
    ensures var x := Recover(ALONE, 0, full.journal[..6]);
            x.bExec == Digest(0, 1, Genesis, a) && RunsOf(x.journal) == []
  {
    CutAlone(s, r, d, full);
    CutLeaves(r, full, Recover(ALONE, 0, full.journal[..6]));
  }

  lemma CutAlone(s: System, r: Replica, d: string, full: Replica)
    requires s.replicas == map[0 := r] && r.id == 0 && |r.journal| == 4 && Tracks(ALONE, r)
    requires Setting(ALONE, {}) && AllSound(s) && Enabled(ALONE, s, ProposeNext(d))
    requires full == Acted(ALONE, {}, s, ProposeNext(d)) && |full.journal| == 8
    ensures CutOk(r, full, 6, Recover(ALONE, 0, full.journal[..6]))
  {
    CutProposal(ALONE, KeysOf({}, s.history + [SelfVote(r, d)]), r, d, full);
  }

  lemma CutProposal(c: Config, k: Keys, r: Replica, d: string, full: Replica)
    requires c.members != {} && Sound(r) && MayPropose(c, r) && Tracks(c, r) && |r.journal| == 4 && r.id == 0
    requires full == Propose(c, k, r, d).0 && |full.journal| == 8
    ensures CutOk(r, full, 6, Recover(c, 0, full.journal[..6]))
  {
    ProposeCutOk(c, k, r, d, 6);
  }

  lemma CutLeaves(r: Replica, full: Replica, x: Replica)
    requires CutOk(r, full, 6, x) && |r.journal| == 4 && |full.journal| == 8
    requires full.journal[5].Write? && full.journal[5].rec.QCRecord? && Runless(full.journal[..6])
    ensures x.bExec == full.bExec && RunsOf(x.journal) == []
  {
    assert CertKept(full.journal, 4, 6);
    NoRuns(full.journal[..6]);
  }

  lemma BrokenAlone(s: System, r: Replica, d: string, full: Replica)
    requires Setting(ALONE, {}) && AllSound(s) && Enabled(ALONE, s, ProposeNext(d)) && s.replicas == map[0 := r]
    requires full == Acted(ALONE, {}, s, ProposeNext(d)) && |r.journal| == 4 && |full.journal| == 8
    ensures var s' := Step(ALONE, {}, s, Crash(ProposeNext(d), 6));
            && 0 in s'.replicas && s'.replicas[0] == Recover(ALONE, 0, full.journal[..6])
            && s'.history == s.history + [SelfVote(r, d)]
  {
  }

  /** The whole third step. */
  lemma LastStep(run: seq<Action>, s: System, r: Replica, a: string, d: string) returns (s': System)
    requires Setting(ALONE, {}) && Exec(ALONE, {}, run) == Some(s) && s.replicas == map[0 := r] && Deep(r, a) && a != ""
    ensures Exec(ALONE, {}, run + [Crash(ProposeNext(d), 6)]) == Some(s') && s'.history == s.history + [SelfVote(r, d)]
    ensures 0 in s'.replicas && s'.replicas[0].bExec == Digest(0, 1, Genesis, a) && RunsOf(s'.replicas[0].journal) == []
  {
    var full := LastShape(s, r, a, d);
    TracksAlone(run, s, r);
    LosingLeaves(s, r, a, d, full);
    BrokenAlone(s, r, d, full);
    ExecOne(run, Crash(ProposeNext(d), 6), s);
    s' := Step(ALONE, {}, s, Crash(ProposeNext(d), 6));
  }

  /** The run is possible, its commits are at consecutive heights, and in the end the block with command `a` is committed
      and counts as committed, but the command has never been run. */
  ghost predicate Lost(run: seq<Action>, a: string)
    requires Setting(ALONE, {})
  {
    var end, first := Exec(ALONE, {}, run), Digest(0, 1, Genesis, a);
    && end.Some? && 0 in end.value.replicas && AllTight(end.value.commits)
    && var x := end.value.replicas[0];
       x.bExec == first && Due(x.bExec) == [Run(first)] && RunsOf(x.journal) == []
  }

  /** A restart is not exactly once, although every member is correct. */
  lemma CommandLost(a: string, b: string, d: string) returns (run: seq<Action>)
    requires a != ""
    ensures run == Proposals([a, b]) + [Crash(ProposeNext(d), 6)]
    ensures Setting(ALONE, {}) && Lost(run, a)
  {
    var before, s, r := TwoProposals(a, b);
    LostAfter(before, s, r, a, d);
    run := before + [Crash(ProposeNext(d), 6)];
  }

  lemma LostAfter(run: seq<Action>, s: System, r: Replica, a: string, d: string)
    requires Setting(ALONE, {}) && Exec(ALONE, {}, run) == Some(s) && s.replicas == map[0 := r] && Deep(r, a) && a != ""
    requires Steady(ALONE, run, 0)
    ensures Lost(run + [Crash(ProposeNext(d), 6)], a)
  {
    var s' := LastStep(run, s, r, a, d);
    LosingIsTight(run, s, r, d, Crash(ProposeNext(d), 6));
    DueOne(a);
  }

  lemma DueOne(a: string)
    requires a != ""
    ensures Due(Digest(0, 1, Genesis, a)) == [Run(Digest(0, 1, Genesis, a))]
  {
    assert Due(Genesis) == [];
  }

  lemma TracksAlone(run: seq<Action>, s: System, r: Replica)
    requires Setting(ALONE, {}) && Exec(ALONE, {}, run) == Some(s) && s.replicas == map[0 := r]
    ensures Tracks(ALONE, r)
  {
    RunKeeps(ALONE, {}, run);
    assert Tracks(ALONE, s.replicas[0]);
  }

  /** The leader has left no gap, so that the one commit is at consecutive heights. */
  lemma LosingIsTight(run: seq<Action>, s: System, r: Replica, d: string, last: Action)
    requires Setting(ALONE, {}) && Exec(ALONE, {}, run) == Some(s) && s.replicas == map[0 := r] && Ready(r)
    requires Steady(ALONE, run, 0) && Exec(ALONE, {}, run + [last]).Some?
    requires Exec(ALONE, {}, run + [last]).value.history == s.history + [SelfVote(r, d)]
    ensures AllTight(Exec(ALONE, {}, run + [last]).value.commits)
  {
    LeaderUnbroken(ALONE, {}, run);
    NextIsAbove(r, d);
    GapFreeIsTight(ALONE, {}, run + [last]);
  }
}
