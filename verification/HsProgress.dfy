/** Under a correct leader nothing stops the protocol: with 3f + 1 members of which up to f say nothing, every sequence of
    commands can be brought to commitment and execution at every correct replica. */
module HsProgress {
  import opened Options
  import opened HsTypes
  import opened HsSpec
  import opened HsRecovery
  import opened HsDurable
  import opened HsQuorum
  import opened HsHistory
  import opened HsSystem
  import opened HsInvariant
  import opened HsSafety
  import opened HsSteps
  import opened HsCrash
  import opened HsTheorems
  import opened HsLeader
  import opened HsExact
  import opened HsSkips
  import opened HsCertify

  // ---- a chain of commands ----

  /** The block at the end of the chain that carries the commands, one above the other. */
  function Line(cmds: seq<string>): BlockId
    decreases |cmds|
  {
    if cmds == [] then Genesis else Digest(0, |cmds|, Line(cmds[..|cmds| - 1]), cmds[|cmds| - 1])
  }

  /** All blocks of the chain. */
  function Known(cmds: seq<string>): set<BlockId>
    decreases |cmds|
  {
    if cmds == [] then {Genesis} else Known(cmds[..|cmds| - 1]) + {Line(cmds)}
  }

  lemma LineAdd(cmds: seq<string>, cmd: string)
    ensures Line(cmds + [cmd]) == Digest(0, |cmds| + 1, Line(cmds), cmd)
    ensures Known(cmds + [cmd]) == Known(cmds) + {Line(cmds + [cmd])}
  {
    assert (cmds + [cmd])[..|cmds|] == cmds;
  }

  lemma {:induction false} LineTop(cmds: seq<string>)
    ensures Height(Line(cmds)) == |cmds| && Line(cmds) in Known(cmds)
  {
  }

  /** A block of the chain is told by its height. */
  lemma {:induction false} OnLine(cmds: seq<string>, b: BlockId)
    requires b in Known(cmds)
    ensures Height(b) <= |cmds| && b == Line(cmds[..Height(b)])
    decreases |cmds|
  {
    if b == Line(cmds) {
      assert cmds[..|cmds|] == cmds;
    } else {
      var front := cmds[..|cmds| - 1];
      OnLine(front, b);
      assert front[..Height(b)] == cmds[..Height(b)];
    }
  }

  lemma {:induction false} LineExtends(cmds: seq<string>, n: nat)
    requires n <= |cmds|
    ensures Extends(Line(cmds), Line(cmds[..n]))
    decreases |cmds|
  {
    if n == |cmds| {
      assert cmds[..n] == cmds;
    } else {
      var front := cmds[..|cmds| - 1];
      LineExtends(front, n);
      assert front[..n] == cmds[..n];
    }
  }

  /** The walk from the top of the chain meets every block of it. */
  lemma {:induction false} WalkMeets(blocks: map<BlockId, Block>, cmds: seq<string>, lock: BlockId)
    requires Known(cmds) <= blocks.Keys && lock in Known(cmds)
    ensures ExtendsFrom(blocks, Line(cmds), lock)
    decreases |cmds|
  {
    if lock != Line(cmds) {
      LineTop(cmds);
      WalkMeets(blocks, cmds[..|cmds| - 1], lock);
    }
  }

  // ---- one replica ----

  /** Every block certifies its parent. */
  predicate Linked(blocks: map<BlockId, Block>) {
    forall b :: b in blocks && !b.Genesis? ==> blocks[b].justify.node == b.parent
  }

  /** Everything below the highest certificate has been committed, but for its last two blocks. */
  predicate Committing(r: Replica) {
    && r.qcHigh.node in r.blocks
    && (r.qcHigh.node.Genesis? || r.qcHigh.node.parent.Genesis? || Height(r.bExec) >= Height(r.qcHigh.node.parent.parent))
  }

  lemma FoldCommits(r: Replica, node: BlockId)
    requires Sound(r) && Linked(r.blocks) && node in r.blocks && !node.Genesis? && !node.parent.Genesis?
    ensures Height(Fold(r, node).bExec) >= Height(node.parent.parent)
  {
    var gp := node.parent.parent;
    if Height(gp) > Height(r.bExec) { SpanLast(r.blocks, gp, r.bExec); }
  }

  lemma TakenCommits(c: Config, k: Keys, r: Replica, qc: QC)
    requires c.members != {} && Sound(r) && Linked(r.blocks) && Committing(r) && qc.node in r.blocks
    ensures Committing(OnNewQC(c, k, r, qc))
  {
    var r1 := r.(qcHigh := qc, journal := r.journal + [Write(QCRecord(qc))]);
    FoldFacts(r1, qc.node);
    if !qc.node.Genesis? && !qc.node.parent.Genesis? { FoldCommits(r1, qc.node); }
  }

  /** The replica knows the chain and no other block. */
  predicate At(r: Replica, cmds: seq<string>) {
    Sound(r) && r.blocks.Keys == Known(cmds) && Linked(r.blocks) && Committing(r)
  }

  /** A leader whose head is the end of the chain. */
  predicate Led(c: Config, k: Keys, r: Replica, cmds: seq<string>)
    requires c.members != {}
  {
    At(r, cmds) && r.head == Line(cmds) && QCValid(c, k, r.blocks, r.qcHigh)
  }

  /** A follower that is ready to vote above the end of the chain. */
  predicate Follows(r: Replica, cmds: seq<string>) {
    At(r, cmds) && r.vHeight <= |cmds| && r.qcHigh.height + 1 >= |cmds|
  }

  lemma TakenAt(c: Config, k: Keys, r: Replica, qc: QC, cmds: seq<string>)
    requires c.members != {} && At(r, cmds) && qc.node in r.blocks
    ensures At(OnNewQC(c, k, r, qc), cmds)
  {
    TakenCounts(c, k, r, qc);
    TakenCommits(c, k, r, qc);
  }

  lemma CountLed(c: Config, k: Keys, r: Replica, v: Vote, cmds: seq<string>)
    requires c.members != {} && Led(c, k, r, cmds)
    ensures Led(c, k, VoteForBlock(c, k, r, v), cmds)
  {
    var all := Sofar(r, v.node) + {v.voter};
    var r1 := r.(votes := r.votes[v.node := all]);
    VoteIs(c, k, r, v, all, r1);
    if Counts(c, k, r, v) {
      var r2, qc := r1.(qcFormed := r1.qcFormed + {v.node}), QC(v.node, v.height, all);
      TakenCounts(c, k, r2, qc);
      TakenAt(c, k, r2, qc, cmds);
    }
  }

  lemma {:induction false} FedLed(c: Config, k: Keys, r: Replica, vs: seq<Vote>, cmds: seq<string>)
    requires c.members != {} && Led(c, k, r, cmds)
    ensures Led(c, k, Fed(c, k, r, vs), cmds)
    decreases |vs|
  {
    if vs != [] {
      FedLed(c, k, r, vs[..|vs| - 1], cmds);
      CountLed(c, k, Fed(c, k, r, vs[..|vs| - 1]), vs[|vs| - 1], cmds);
    }
  }

  /** The block that carries the next command. */
  function NextOn(cmds: seq<string>, cmd: string, qc: QC): Block {
    Block(Line(cmds + [cmd]), 0, |cmds| + 1, Some(Line(cmds)), cmd, qc)
  }

  lemma NextIsOn(r: Replica, cmds: seq<string>, cmd: string)
    requires At(r, cmds) && r.head == Line(cmds)
    ensures NextBlock(r, cmd) == NextOn(cmds, cmd, r.qcHigh)
  {
    LineAdd(cmds, cmd);
    LineTop(cmds);
    forall b | b in r.blocks ensures Height(b) <= |cmds| { OnLine(cmds, b); }
    NextIsAbove(r, cmd);
  }

  /** The next block enters the tree. */
  lemma InsertAt(r: Replica, cmds: seq<string>, cmd: string, qc: QC)
    requires At(r, cmds) && qc.node == Line(cmds)
    ensures var b := NextOn(cmds, cmd, qc);
            && Content(b) == Some(b.id) && b.parent.value in r.blocks && b.id !in r.blocks
            && At(Insert(r, b), cmds + [cmd]) && At(Extended(r, b), cmds + [cmd])
  {
    LineAdd(cmds, cmd);
    LineTop(cmds);
    var b := NextOn(cmds, cmd, qc);
    if b.id in r.blocks { OnLine(cmds, b.id); }
  }

  /** The certificate is for the end of the chain and verifies. */
  predicate Certifies(c: Config, k: Keys, qc: QC, cmds: seq<string>)
    requires c.members != {}
  {
    qc.node == Line(cmds) && qc.height == |cmds| && QCValid(c, k, map[], qc)
  }

  lemma StaysValid(c: Config, k: Keys, r: Replica, qc: QC, cmds: seq<string>)
    requires c.members != {} && Sound(r) && Certifies(c, k, qc, cmds)
    ensures QCValid(c, k, r.blocks, qc)
  {
    LineTop(cmds);
  }

  lemma Accepts(c: Config, k: Keys, r: Replica, cmds: seq<string>, cmd: string, qc: QC)
    requires c.members != {} && At(r, cmds) && Certifies(c, k, qc, cmds)
    ensures Acceptable(c, k, r, Proposal(NextOn(cmds, cmd, qc), c.leader), true)
  {
    LineAdd(cmds, cmd);
    LineTop(cmds);
    InsertAt(r, cmds, cmd, qc);
    OnLine(cmds, r.bExec);
    StaysValid(c, k, r, qc, cmds);
    WalkMeets(r.blocks, cmds, r.bLock);
  }

  /** A follower votes for the next block. */
  lemma FollowerVotes(c: Config, byzantine: set<Id>, h: seq<Event>, r: Replica, cmds: seq<string>, cmd: string, qc: QC)
    returns (r': Replica, e: Event)
    requires c.members != {} && Follows(r, cmds) && Certifies(c, KeysOf(byzantine, h), qc, cmds)
    ensures var b := NextOn(cmds, cmd, qc);
            && Content(b) == Some(b.id) && b.parent.value in r.blocks && Follower(c, byzantine, h, r, b, true) == (r', [e])
            && VoteOf(e) == Vote(b.height, b.id, r.id)
    ensures Follows(r', cmds + [cmd]) && r'.id == r.id
  {
    var b, k := NextOn(cmds, cmd, qc), KeysOf(byzantine, h);
    InsertAt(r, cmds, cmd, qc);
    LineTop(cmds + [cmd]);
    var r1 := Insert(r, b);
    StaysValid(c, k, r1, qc, cmds);
    TakenCounts(c, k, r1, qc);
    TakenAt(c, k, r1, qc, cmds + [cmd]);
    r' := Follower(c, byzantine, h, r, b, true).0;
    e := Follower(c, byzantine, h, r, b, true).1[0];
  }

  // ---- one round ----

  lemma CertifiesGrow(c: Config, byzantine: set<Id>, h: seq<Event>, h': seq<Event>, blocks: map<BlockId, Block>, qc: QC)
    requires c.members != {} && h <= h' && QCValid(c, KeysOf(byzantine, h), blocks, qc)
    ensures QCValid(c, KeysOf(byzantine, h'), blocks, qc)
  {
    forall v | v in qc.voters && Verifies(KeysOf(byzantine, h), Vote(qc.height, qc.node, v))
      ensures Verifies(KeysOf(byzantine, h'), Vote(qc.height, qc.node, v))
    {
      KeysGrow(byzantine, h, h', Vote(qc.height, qc.node, v));
    }
  }

  lemma LedGrows(c: Config, byzantine: set<Id>, h: seq<Event>, h': seq<Event>, r: Replica, cmds: seq<string>)
    requires c.members != {} && h <= h' && Led(c, KeysOf(byzantine, h), r, cmds)
    ensures Led(c, KeysOf(byzantine, h'), r, cmds)
  {
    CertifiesGrow(c, byzantine, h, h', r.blocks, r.qcHigh);
  }

  predicate HasSigned(h: seq<Event>, b: Block, v: Id) {
    exists e :: e in h && VoteOf(e) == Vote(b.height, b.id, v)
  }

  /** The proposal is out, with the leader's own vote. */
  predicate Proposed(c: Config, byzantine: set<Id>, s: System, cmds: seq<string>, cmd: string, qc: QC)
    requires c.members != {}
  {
    && c.leader in s.replicas && Led(c, KeysOf(byzantine, s.history), s.replicas[c.leader], cmds + [cmd])
    && NextOn(cmds, cmd, qc) in s.proposals && Certifies(c, KeysOf(byzantine, s.history), qc, cmds)
    && HasSigned(s.history, NextOn(cmds, cmd, qc), c.leader)
  }

  /** A follower that has voted, and one that has not seen the proposal. */
  predicate Voted(s: System, cmds: seq<string>, cmd: string, qc: QC, p: Id) {
    p in s.replicas && Follows(s.replicas[p], cmds + [cmd]) && HasSigned(s.history, NextOn(cmds, cmd, qc), p)
  }

  predicate Waits(s: System, cmds: seq<string>, p: Id) {
    p in s.replicas && Follows(s.replicas[p], cmds)
  }

  /** The followers in `todo` wait for the proposal, all others have voted. */
  predicate Spreading(c: Config, byzantine: set<Id>, s: System, cmds: seq<string>, cmd: string, qc: QC, todo: set<Id>)
    requires c.members != {}
  {
    && Proposed(c, byzantine, s, cmds, cmd, qc) && todo <= s.replicas.Keys - {c.leader}
    && forall p :: p in s.replicas && p != c.leader ==> if p in todo then Waits(s, cmds, p) else Voted(s, cmds, cmd, qc, p)
  }

  /** Between rounds: the leader has certified the whole chain, the followers at least all but the last block. */
  predicate Upto(c: Config, byzantine: set<Id>, s: System, cmds: seq<string>)
    requires c.members != {}
  {
    && c.leader in s.replicas && Led(c, KeysOf(byzantine, s.history), s.replicas[c.leader], cmds)
    && s.replicas[c.leader].qcHigh.node == Line(cmds) && s.replicas[c.leader].qcHigh.height == |cmds|
    && forall p :: p in s.replicas && p != c.leader ==> Waits(s, cmds, p)
  }

  lemma ProposeLed(c: Config, byzantine: set<Id>, h: seq<Event>, r: Replica, cmds: seq<string>, cmd: string)
    requires c.members != {} && Led(c, KeysOf(byzantine, h), r, cmds) && r.qcHigh.node == Line(cmds) && MayPropose(c, r)
    ensures var h' := h + [SelfVote(r, cmd)];
            && Led(c, KeysOf(byzantine, h'), Propose(c, KeysOf(byzantine, h'), r, cmd).0, cmds + [cmd])
            && HasSigned(h', NextOn(cmds, cmd, r.qcHigh), r.id)
  {
    var h', b := h + [SelfVote(r, cmd)], NextBlock(r, cmd);
    var k := KeysOf(byzantine, h');
    NextIsOn(r, cmds, cmd);
    LineTop(cmds + [cmd]);
    InsertAt(r, cmds, cmd, r.qcHigh);
    LedGrows(c, byzantine, h, h', r, cmds);
    CountLed(c, k, Extended(r, b), Vote(b.height, b.id, r.id), cmds + [cmd]);
    assert SelfVote(r, cmd) in h' && VoteOf(SelfVote(r, cmd)) == Vote(b.height, b.id, r.id);
  }

  lemma Certifying(c: Config, k: Keys, r: Replica, cmds: seq<string>)
    requires c.members != {} && QCValid(c, k, r.blocks, r.qcHigh) && r.qcHigh.node == Line(cmds) && r.qcHigh.height == |cmds|
    ensures Certifies(c, k, r.qcHigh, cmds)
  {
  }

  lemma ProposeOne(c: Config, byzantine: set<Id>, run: seq<Action>, cmds: seq<string>, cmd: string) returns (qc: QC)
    requires Setting(c, byzantine) && byzantine <= c.members && Exec(c, byzantine, run).Some?
    requires Upto(c, byzantine, Exec(c, byzantine, run).value, cmds)
    ensures var run' := run + [ProposeNext(cmd)];
            && Exec(c, byzantine, run').Some?
            && var s' := Exec(c, byzantine, run').value;
               Spreading(c, byzantine, s', cmds, cmd, qc, s'.replicas.Keys - {c.leader})
  {
    var s, a := Exec(c, byzantine, run).value, ProposeNext(cmd);
    RunSound(c, byzantine, run);
    var r := s.replicas[c.leader];
    qc := r.qcHigh;
    ExecAdd(c, byzantine, run, a);
    ProposeShape(c, byzantine, s, a);
    ProposeLed(c, byzantine, s.history, r, cmds, cmd);
    NextIsOn(r, cmds, cmd);
    CertifiesGrow(c, byzantine, s.history, s.history + [SelfVote(r, cmd)], r.blocks, qc);
    Certifying(c, KeysOf(byzantine, s.history + [SelfVote(r, cmd)]), r, cmds);
    NowWaiting(c, byzantine, s, Step(c, byzantine, s, a), cmds, cmd, qc);
  }

  lemma NowWaiting(c: Config, byzantine: set<Id>, s: System, s': System, cmds: seq<string>, cmd: string, qc: QC)
    requires c.members != {} && Upto(c, byzantine, s, cmds) && Proposed(c, byzantine, s', cmds, cmd, qc)
    requires s'.replicas == s.replicas[c.leader := s'.replicas[c.leader]]
    ensures Spreading(c, byzantine, s', cmds, cmd, qc, s'.replicas.Keys - {c.leader})
  {
    forall p | p in s'.replicas && p != c.leader ensures Waits(s', cmds, p) {
      assert Waits(s, cmds, p);
    }
  }

  lemma SendOne(c: Config, byzantine: set<Id>, run: seq<Action>, cmds: seq<string>, cmd: string, qc: QC,
                todo: set<Id>, p: Id)
    returns (a: Action)
    requires Setting(c, byzantine) && byzantine <= c.members && Exec(c, byzantine, run).Some?
    requires Spreading(c, byzantine, Exec(c, byzantine, run).value, cmds, cmd, qc, todo) && p in todo
    ensures a.Deliver? && Exec(c, byzantine, run + [a]).Some?
    ensures Spreading(c, byzantine, Exec(c, byzantine, run + [a]).value, cmds, cmd, qc, todo - {p})
  {
    var s, b := Exec(c, byzantine, run).value, NextOn(cmds, cmd, qc);
    RunSound(c, byzantine, run);
    a := Deliver(p, Proposal(b, c.leader), true, true);
    ExecAdd(c, byzantine, run, a);
    var r', e := FollowerVotes(c, byzantine, s.history, s.replicas[p], cmds, cmd, qc);
    Accepts(c, KeysOf(byzantine, s.history), s.replicas[p], cmds, cmd, qc);
    AcceptedShape(c, byzantine, s, a);
    var s' := Step(c, byzantine, s, a);
    SpreadOne(c, byzantine, s, s', cmds, cmd, qc, todo, p, r', e);
  }

  lemma SpreadOne(c: Config, byzantine: set<Id>, s: System, s': System, cmds: seq<string>, cmd: string, qc: QC,
                  todo: set<Id>, p: Id, r': Replica, e: Event)
    requires c.members != {} && Spreading(c, byzantine, s, cmds, cmd, qc, todo) && p in todo
    requires s'.replicas == s.replicas[p := r'] && s'.history == s.history + [e] && s'.proposals == s.proposals
    requires Follows(r', cmds + [cmd]) && VoteOf(e) == Vote(|cmds| + 1, Line(cmds + [cmd]), p)
    ensures Spreading(c, byzantine, s', cmds, cmd, qc, todo - {p})
  {
    LedGrows(c, byzantine, s.history, s'.history, s.replicas[c.leader], cmds + [cmd]);
    CertifiesGrow(c, byzantine, s.history, s'.history, map[], qc);
    assert e in s'.history && forall x :: x in s.history ==> x in s'.history;
  }

  predicate Calm(run: seq<Action>) {
    forall i :: 0 <= i < |run| ==> !run[i].Crash?
  }

  lemma CalmAdd(run: seq<Action>, a: Action)
    requires Calm(run) && !a.Crash?
    ensures Calm(run + [a])
  {
  }

  lemma FewerLeft(todo: set<Id>, p: Id)
    requires p in todo
    ensures |todo - {p}| < |todo|
  {
  }

  lemma {:induction false} SendAll(c: Config, byzantine: set<Id>, run: seq<Action>, cmds: seq<string>, cmd: string, qc: QC,
                                   todo: set<Id>)
    returns (run': seq<Action>)
    requires Setting(c, byzantine) && byzantine <= c.members && Exec(c, byzantine, run).Some? && Calm(run)
    requires Spreading(c, byzantine, Exec(c, byzantine, run).value, cmds, cmd, qc, todo)
    ensures Exec(c, byzantine, run').Some? && Calm(run')
    ensures Spreading(c, byzantine, Exec(c, byzantine, run').value, cmds, cmd, qc, {})
    decreases |todo|
  {
    if todo == {} {
      run' := run;
    } else {
      var p :| p in todo;
      var a := SendOne(c, byzantine, run, cmds, cmd, qc, todo, p);
      CalmAdd(run, a);
      FewerLeft(todo, p);
      run' := SendAll(c, byzantine, run + [a], cmds, cmd, qc, todo - {p});
    }
  }

  /** Votes of all of `q` for the block. */
  lemma {:induction false} AllVotes(b: BlockId, q: set<Id>) returns (vs: seq<Vote>)
    ensures forall v :: v in q ==> Vote(Height(b), b, v) in vs
    decreases |q|
  {
    vs := [];
    if q != {} {
      var v :| v in q;
      vs := AllVotes(b, q - {v});
      vs := vs + [Vote(Height(b), b, v)];
    }
  }

  lemma {:induction false} CollectsCalm(run: seq<Action>, vs: seq<Vote>)
    requires Calm(run)
    ensures Calm(run + Collects(vs))
    decreases |vs|
  {
    if vs == [] {
      assert run + [] == run;
    } else {
      CollectsCalm(run, vs[..|vs| - 1]);
      CollectsMore(run, vs);
    }
  }

  /** The correct members are a quorum. */
  lemma CorrectQuorum(c: Config, byzantine: set<Id>)
    requires Setting(c, byzantine)
    ensures |c.members - byzantine| >= Quorum(c)
  {
    assert c.members == (c.members - byzantine) + (c.members * byzantine) && (c.members - byzantine) !! (c.members * byzantine);
    SubsetSize(c.members * byzantine, byzantine);
  }

  lemma AllSigned(c: Config, byzantine: set<Id>, s: System, cmds: seq<string>, cmd: string, qc: QC, vs: seq<Vote>)
    requires Setting(c, byzantine) && Spreading(c, byzantine, s, cmds, cmd, qc, {})
    requires s.replicas.Keys == c.members - byzantine
    requires forall v :: v in s.replicas ==> Vote(|cmds| + 1, Line(cmds + [cmd]), v) in vs
    ensures HoldsQuorum(c, KeysOf(byzantine, s.history), vs, Line(cmds + [cmd]), c.members - byzantine)
  {
    CorrectQuorum(c, byzantine);
    LineTop(cmds + [cmd]);
    forall v | v in s.replicas ensures HasSigned(s.history, NextOn(cmds, cmd, qc), v) {
      if v != c.leader { assert Voted(s, cmds, cmd, qc, v); }
    }
  }

  /** What the invariant says about the highest certificate. */
  lemma HighIs(c: Config, byzantine: set<Id>, run: seq<Action>, p: Id)
    requires Setting(c, byzantine) && byzantine <= c.members && Exec(c, byzantine, run).Some?
    requires p in Exec(c, byzantine, run).value.replicas
    ensures var r := Exec(c, byzantine, run).value.replicas[p];
            r.qcHigh.node in r.blocks.Keys && r.qcHigh.height == Height(r.qcHigh.node)
  {
    RunKeeps(c, byzantine, run);
    assert NamedOk(c, byzantine, Exec(c, byzantine, run).value, p);
  }

  lemma TopOnLine(cmds: seq<string>, b: BlockId)
    requires b in Known(cmds) && Height(b) >= |cmds|
    ensures b == Line(cmds) && Height(b) == |cmds|
  {
    OnLine(cmds, b);
    assert cmds[..|cmds|] == cmds;
  }

  lemma CollectVotes(c: Config, byzantine: set<Id>, run: seq<Action>, cmds: seq<string>, cmd: string, qc: QC)
    returns (run': seq<Action>)
    requires Setting(c, byzantine) && byzantine <= c.members && Exec(c, byzantine, run).Some? && Calm(run)
    requires c.leader in c.members - byzantine
    requires Spreading(c, byzantine, Exec(c, byzantine, run).value, cmds, cmd, qc, {})
    ensures Exec(c, byzantine, run').Some? && Calm(run') && Upto(c, byzantine, Exec(c, byzantine, run').value, cmds + [cmd])
  {
    var s, b, q := Exec(c, byzantine, run).value, Line(cmds + [cmd]), c.members - byzantine;
    RunSound(c, byzantine, run);
    LineTop(cmds + [cmd]);
    var vs := AllVotes(b, q);
    AllSigned(c, byzantine, s, cmds, cmd, qc, vs);
    VotesCertify(c, byzantine, run, vs, b, q);
    CollectAll(c, byzantine, run, vs);
    CollectsCalm(run, vs);
    run' := run + Collects(vs);
    FedLed(c, KeysOf(byzantine, s.history), s.replicas[c.leader], vs, cmds + [cmd]);
    HighIs(c, byzantine, run', c.leader);
    TopOnLine(cmds + [cmd], Exec(c, byzantine, run').value.replicas[c.leader].qcHigh.node);
    RoundOver(c, byzantine, s, Exec(c, byzantine, run').value, cmds, cmd, qc);
  }

  lemma RoundOver(c: Config, byzantine: set<Id>, s: System, s': System, cmds: seq<string>, cmd: string, qc: QC)
    requires c.members != {} && Spreading(c, byzantine, s, cmds, cmd, qc, {}) && s'.history == s.history
    requires c.leader in s'.replicas && s'.replicas == s.replicas[c.leader := s'.replicas[c.leader]]
    requires Led(c, KeysOf(byzantine, s.history), s'.replicas[c.leader], cmds + [cmd])
    requires s'.replicas[c.leader].qcHigh.node == Line(cmds + [cmd])
    requires s'.replicas[c.leader].qcHigh.height == |cmds + [cmd]|
    ensures Upto(c, byzantine, s', cmds + [cmd])
  {
    forall p | p in s'.replicas && p != c.leader ensures Waits(s', cmds + [cmd], p) {
      assert Voted(s, cmds, cmd, qc, p) && s'.replicas[p] == s.replicas[p];
    }
  }

  lemma Round(c: Config, byzantine: set<Id>, run: seq<Action>, cmds: seq<string>, cmd: string) returns (run': seq<Action>)
    requires Setting(c, byzantine) && byzantine <= c.members && Exec(c, byzantine, run).Some? && Calm(run)
    requires c.leader in c.members - byzantine && Upto(c, byzantine, Exec(c, byzantine, run).value, cmds)
    ensures Exec(c, byzantine, run').Some? && Calm(run') && Upto(c, byzantine, Exec(c, byzantine, run').value, cmds + [cmd])
  {
    var qc := ProposeOne(c, byzantine, run, cmds, cmd);
    var run1 := run + [ProposeNext(cmd)];
    CalmAdd(run, ProposeNext(cmd));
    run' := SendAll(c, byzantine, run1, cmds, cmd, qc, Exec(c, byzantine, run1).value.replicas.Keys - {c.leader});
    run' := CollectVotes(c, byzantine, run', cmds, cmd, qc);
  }

  // ---- all rounds ----

  lemma InitUpto(c: Config, byzantine: set<Id>)
    requires Setting(c, byzantine) && c.leader in c.members - byzantine
    ensures Upto(c, byzantine, Init(c, byzantine), [])
  {
  }

  lemma {:induction false} Rounds(c: Config, byzantine: set<Id>, cmds: seq<string>) returns (run: seq<Action>)
    requires Setting(c, byzantine) && byzantine <= c.members && c.leader in c.members - byzantine
    ensures Exec(c, byzantine, run).Some? && Calm(run) && Upto(c, byzantine, Exec(c, byzantine, run).value, cmds)
    decreases |cmds|
  {
    if cmds == [] {
      run := [];
      InitUpto(c, byzantine);
    } else {
      var front, cmd := Unsnoc(cmds);
      var run0 := Rounds(c, byzantine, front);
      run := Round(c, byzantine, run0, front, cmd);
    }
  }

  lemma Unsnoc(cmds: seq<string>) returns (front: seq<string>, cmd: string)
    requires cmds != []
    ensures front + [cmd] == cmds && |front| < |cmds|
  {
    front, cmd := cmds[..|cmds| - 1], cmds[|cmds| - 1];
  }

  /** Three blocks behind the end of the chain, everything is committed. */
  lemma CommitsBehind(r: Replica, cmds: seq<string>, tail: seq<string>)
    requires At(r, cmds + tail) && |tail| == 3 && r.qcHigh.height == Height(r.qcHigh.node) && r.qcHigh.height + 1 >= |cmds + tail|
    ensures Extends(r.bExec, Line(cmds))
  {
    HighLow(r, cmds + tail);
    LowExtends(cmds, tail, r.bExec);
  }

  /** The grandparent of a block of the chain is two lower. */
  lemma TwoDown(cmds: seq<string>)
    requires |cmds| >= 2
    ensures var b := Line(cmds); !b.Genesis? && !b.parent.Genesis? && Height(b.parent.parent) == |cmds| - 2
  {
    var front := cmds[..|cmds| - 1];
    LineTop(front[..|front| - 1]);
  }

  lemma HighLow(r: Replica, cmds: seq<string>)
    requires At(r, cmds) && r.qcHigh.height == Height(r.qcHigh.node) && r.qcHigh.height + 1 >= |cmds| >= 3
    ensures r.bExec in Known(cmds) && Height(r.bExec) + 3 >= |cmds|
  {
    OnLine(cmds, r.qcHigh.node);
    TwoDown(cmds[..Height(r.qcHigh.node)]);
  }

  lemma LowExtends(cmds: seq<string>, tail: seq<string>, b: BlockId)
    requires b in Known(cmds + tail) && Height(b) >= |cmds|
    ensures Extends(b, Line(cmds))
  {
    OnLine(cmds + tail, b);
    var x := (cmds + tail)[..Height(b)];
    LineExtends(x, |cmds|);
    assert x[..|cmds|] == cmds;
  }

  /** The blocks of the chain, oldest first, carry the commands, in order. */
  lemma {:induction false} PathOfLine(cmds: seq<string>)
    ensures var p := Path(Line(cmds));
            |p| == |cmds| && forall i :: 0 <= i < |p| ==> !p[i].Genesis? && p[i].cmd == cmds[i]
    decreases |cmds|
  {
    if cmds != [] { PathOfLine(cmds[..|cmds| - 1]); }
  }

  /** The replica has committed, and run, the commands first. */
  ghost predicate HasRun(x: Replica, cmds: seq<string>) {
    && |x.committed| >= |cmds| && (forall i :: 0 <= i < |cmds| ==> !x.committed[i].Genesis? && x.committed[i].cmd == cmds[i])
    && Due(Line(cmds)) <= RunsOf(x.journal)
  }

  lemma BehindHasRun(x: Replica, cmds: seq<string>)
    requires Extends(x.bExec, Line(cmds)) && x.committed == Path(x.bExec) && RunsOf(x.journal) == Due(x.bExec)
    ensures HasRun(x, cmds)
  {
    PathPrefix(x.bExec, Line(cmds));
    PathOfLine(cmds);
    DuePrefix(x.bExec, Line(cmds));
  }

  /** With 3f + 1 members of which the `byzantine` ones, at most f, never say a word, and a correct leader: for every
      sequence of commands there is a run after which every correct replica has committed blocks that carry exactly these
      commands, in this order, and has run them. */
  lemma CommandsCanCommit(c: Config, byzantine: set<Id>, cmds: seq<string>) returns (run: seq<Action>)
    requires Setting(c, byzantine) && byzantine <= c.members && c.leader in c.members - byzantine
    ensures Exec(c, byzantine, run).Some? && Calm(run)
    ensures var s := Exec(c, byzantine, run).value;
            s.replicas.Keys == c.members - byzantine && forall r :: r in s.replicas ==> HasRun(s.replicas[r], cmds)
  {
    var tail := ["", "", ""];
    run := Rounds(c, byzantine, cmds + tail);
    RunSound(c, byzantine, run);
    LeaderUnbroken(c, byzantine, run);
    GapFreeIsTight(c, byzantine, run);
    var s := Exec(c, byzantine, run).value;
    forall r | r in s.replicas ensures HasRun(s.replicas[r], cmds) {
      HighIs(c, byzantine, run, r);
      assert r != c.leader ==> Waits(s, cmds + tail, r);
      CommitsBehind(s.replicas[r], cmds, tail);
      CommittedIsBranch(c, byzantine, run, r);
      CommandsRunExactly(c, byzantine, run, r);
      BehindHasRun(s.replicas[r], cmds);
    }
  }
}
