/** Why commits at consecutive heights matter: the chain rules compare parents and certificates but not heights. For every
    choice of heights that are not consecutive there is a run in which a chain of three blocks at these heights commits
    one block while another correct replica commits a conflicting one; at consecutive heights there is none. */
module HsGaps {
  import opened Options
  import opened HsTypes
  import opened HsSpec
  import opened HsDurable
  import opened HsQuorum
  import opened HsHistory
  import opened HsSystem
  import opened HsInvariant
  import opened HsSafety
  import opened HsSteps
  import opened HsTheorems

  /** Four members, of which member 3, the leader, is Byzantine. */
  const C: Config := Config({0, 1, 2, 3}, 3)
  const B: set<Id> := {3}

  lemma FourMembers()
    ensures Setting(C, B) && B <= C.members && Quorum(C) == 3 && C.members - B == {0, 1, 2}
  {
    assert |C.members| == 4;
    assert C.members - B == {0, 1, 2};
  }

  // ---- what the leader sends ----

  /** Members 1 and 2 sign for a block, and so does the leader. */
  function QcOf(x: BlockId): QC {
    if x.Genesis? then GenesisQC(C) else QC(x, Height(x), {1, 2, 3})
  }

  function BlockOf(x: BlockId): Block {
    if x.Genesis? then GenesisBlock(C) else Block(x, x.view, x.height, Some(x.parent), x.cmd, QcOf(x.parent))
  }

  function Tree(know: set<BlockId>): map<BlockId, Block> {
    map b | b in know :: BlockOf(b)
  }

  predicate Signed(k: Keys, x: BlockId) {
    x.Genesis? || (Vote(Height(x), x, 1) in k.signed && Vote(Height(x), x, 2) in k.signed)
  }

  lemma QcOfValid(k: Keys, know: set<BlockId>, x: BlockId)
    requires Signed(k, x) && k.byzantine == B
    ensures C.members != {} && QCValid(C, k, Tree(know), QcOf(x))
  {
    FourMembers();
    assert |{1, 2, 3}| == 3;
  }

  // ---- what a replica shows ----

  datatype Look = Look(know: set<BlockId>, high: BlockId, lock: BlockId, exec: BlockId, v: nat, committed: seq<BlockId>)

  predicate Shows(r: Replica, l: Look) {
    && r.blocks == Tree(l.know) && r.qcHigh.node == l.high && r.qcHigh.height == Height(l.high) && r.bLock == l.lock
    && r.bExec == l.exec && r.vHeight == l.v && r.committed == l.committed
  }

  /** The next block may be accepted and voted for. */
  predicate Fits(l: Look, x: BlockId) {
    && !x.Genesis? && x.view == 0 && x !in l.know && x.parent in l.know && Genesis in l.know
    && Height(x) > Height(x.parent) && Height(x) > Height(l.exec) && Height(x) > l.v
    && (x.parent == l.lock || Height(x.parent) > Height(l.lock))
  }

  /** A certificate higher than any before: it may lock its parent and commit its grandparent. */
  function Raise(l: Look, node: BlockId): Look {
    if Height(node) <= Height(l.high) || node.Genesis? then l
    else
      var l1 := l.(high := node, lock := if Height(node.parent) > Height(l.lock) then node.parent else l.lock);
      if node.parent.Genesis? || Height(node.parent.parent) <= Height(l.exec) then l1
      else
        var gp := node.parent.parent;
        l1.(exec := gp, committed := l.committed + Span(Tree(l.know), gp, l.exec))
  }

  function After(l: Look, x: BlockId): Look
    requires !x.Genesis?
  {
    Raise(l.(know := l.know + {x}), x.parent).(v := Height(x))
  }

  lemma InsertShows(r: Replica, l: Look, x: BlockId)
    requires Sound(r) && Shows(r, l) && Fits(l, x)
    ensures Content(BlockOf(x)) == Some(x) && x.parent in r.blocks && x !in r.blocks
    ensures Shows(Insert(r, BlockOf(x)), l.(know := l.know + {x}))
  {
    assert Tree(l.know)[x := BlockOf(x)] == Tree(l.know + {x});
  }

  lemma FoldShows(r: Replica, l: Look, node: BlockId)
    requires Sound(r) && Shows(r, l) && node in l.know && Height(node) > Height(l.high)
    ensures Shows(Fold(r.(qcHigh := QcOf(node), journal := r.journal + [Write(QCRecord(QcOf(node)))]), node), Raise(l, node))
  {
    var r1 := r.(qcHigh := QcOf(node), journal := r.journal + [Write(QCRecord(QcOf(node)))]);
    FoldFacts(r1, node);
    if !node.parent.Genesis? {
      var gp := node.parent.parent;
      if Height(gp) > Height(r.bExec) { SpanLast(r.blocks, gp, r.bExec); }
    }
  }

  lemma TakeShows(k: Keys, r: Replica, l: Look, node: BlockId)
    requires Sound(r) && Shows(r, l) && node in l.know && Signed(k, node) && k.byzantine == B
    ensures C.members != {} && Shows(OnNewQC(C, k, r, QcOf(node)), Raise(l, node))
  {
    QcOfValid(k, l.know, node);
    if Height(node) > Height(l.high) { FoldShows(r, l, node); }
  }

  lemma IsAcceptable(k: Keys, r: Replica, l: Look, x: BlockId)
    requires Sound(r) && Shows(r, l) && Fits(l, x) && Signed(k, x.parent) && k.byzantine == B
    ensures C.members != {} && Acceptable(C, k, r, Proposal(BlockOf(x), 3), true)
  {
    QcOfValid(k, l.know, x.parent);
  }

  /** The replica takes the block in and votes for it. */
  lemma AcceptShows(k: Keys, r: Replica, l: Look, x: BlockId)
    requires Sound(r) && Shows(r, l) && Fits(l, x) && Signed(k, x.parent) && k.byzantine == B
    ensures C.members != {} && Acceptable(C, k, r, Proposal(BlockOf(x), 3), true)
    ensures var r2 := OnNewQC(C, k, Insert(r, BlockOf(x)), BlockOf(x).justify);
            var (r', vote) := CastVote(r2, BlockOf(x), true);
            Shows(r', After(l, x)) && vote.Some? && r'.id == r.id
  {
    IsAcceptable(k, r, l, x);
    InsertShows(r, l, x);
    var l1 := l.(know := l.know + {x});
    TakeShows(k, Insert(r, BlockOf(x)), l1, x.parent);
    TakenShape(C, k, Insert(r, BlockOf(x)), BlockOf(x).justify);
    CastShows(OnNewQC(C, k, Insert(r, BlockOf(x)), BlockOf(x).justify), Raise(l1, x.parent), BlockOf(x));
  }

  lemma CastShows(r: Replica, l: Look, b: Block)
    requires Shows(r, l) && b.height > l.v
    ensures var (r', vote) := CastVote(r, b, true);
            Shows(r', l.(v := b.height)) && vote.Some? && r'.id == r.id
  {
  }

  // ---- one delivery ----

  /** What the three correct replicas show. */
  datatype Looks = Looks(l0: Look, l1: Look, l2: Look)

  function Pick(t: Looks, i: Id): Look {
    if i == 0 then t.l0 else if i == 1 then t.l1 else t.l2
  }

  function Put(t: Looks, i: Id, l: Look): Looks {
    if i == 0 then t.(l0 := l) else if i == 1 then t.(l1 := l) else t.(l2 := l)
  }

  predicate Is(replicas: map<Id, Replica>, i: Id, l: Look) {
    i in replicas && replicas[i].id == i && Shows(replicas[i], l)
  }

  predicate AllShow(replicas: map<Id, Replica>, t: Looks) {
    && (forall i :: i in replicas ==> i < 3)
    && Is(replicas, 0, t.l0) && Is(replicas, 1, t.l1) && Is(replicas, 2, t.l2)
  }

  predicate AllSigned(h: seq<Event>, voted: set<BlockId>) {
    forall x :: x in voted ==> Signed(KeysOf(B, h), x)
  }

  ghost predicate Stage(run: seq<Action>, s: System, looks: Looks, voted: set<BlockId>) {
    Setting(C, B) && Exec(C, B, run) == Some(s) && AllShow(s.replicas, looks) && AllSigned(s.history, voted)
  }

  function Give(i: Id, x: BlockId): Action {
    Deliver(i, Proposal(BlockOf(x), 3), true, true)
  }

  lemma GiveFollower(h: seq<Event>, r: Replica, l: Look, x: BlockId) returns (r': Replica, e: Event)
    requires Sound(r) && Shows(r, l) && Fits(l, x) && Signed(KeysOf(B, h), x.parent)
    ensures C.members != {} && Acceptable(C, KeysOf(B, h), r, Proposal(BlockOf(x), 3), true)
    ensures Content(BlockOf(x)) == Some(x) && x.parent in r.blocks
    ensures Follower(C, B, h, r, BlockOf(x), true) == (r', [e]) && VoteOf(e) == Vote(Height(x), x, r.id)
    ensures Shows(r', After(l, x)) && r'.id == r.id
  {
    AcceptShows(KeysOf(B, h), r, l, x);
    r' := Follower(C, B, h, r, BlockOf(x), true).0;
    e := Follower(C, B, h, r, BlockOf(x), true).1[0];
  }

  lemma GiveShaped(c: Config, byzantine: set<Id>, s: System, a: Action, r': Replica, e: Event) returns (s': System)
    requires c.members != {} && AllSound(s) && a.Deliver? && Enabled(c, s, a) && s.replicas[a.to].id == a.to == r'.id
    requires Acceptable(c, KeysOf(byzantine, s.history), s.replicas[a.to], a.p, a.signed)
    requires Follower(c, byzantine, s.history, s.replicas[a.to], a.p.block, a.durable) == (r', [e])
    ensures s' == Step(c, byzantine, s, a)
    ensures s'.replicas == s.replicas[a.to := r'] && s'.history == s.history + [e]
    ensures s'.commits == if r'.bExec == s.replicas[a.to].bExec then s.commits else s.commits + [ChainBelow(r'.qcHigh.node)]
  {
    AcceptedShape(c, byzantine, s, a);
    s' := Step(c, byzantine, s, a);
  }

  lemma ExecOne(c: Config, byzantine: set<Id>, run: seq<Action>, a: Action, s: System)
    requires Setting(c, byzantine) && Exec(c, byzantine, run) == Some(s) && AllSound(s) && Enabled(c, s, a)
    ensures Exec(c, byzantine, run + [a]) == Some(Step(c, byzantine, s, a))
  {
    assert (run + [a])[..|run|] == run;
  }

  /** What a delivery does to the system. */
  lemma GiveRun(run: seq<Action>, s: System, i: Id, l: Look, x: BlockId) returns (run': seq<Action>, s': System, r': Replica)
    requires Setting(C, B) && Exec(C, B, run) == Some(s) && 3 !in s.replicas && Is(s.replicas, i, l)
    requires Fits(l, x) && Signed(KeysOf(B, s.history), x.parent)
    ensures Exec(C, B, run') == Some(s') && s'.replicas == s.replicas[i := r'] && Shows(r', After(l, x)) && r'.id == i
    ensures s.history <= s'.history && Vote(Height(x), x, i) in KeysOf(B, s'.history).signed
    ensures Committing(l, After(l, x), s, s')
  {
    StageSound(run, s);
    var e;
    r', e := GiveFollower(s.history, s.replicas[i], l, x);
    s' := GiveShaped(C, B, s, Give(i, x), r', e);
    ExecOne(C, B, run, Give(i, x), s);
    run' := run + [Give(i, x)];
    VoteSigned(s'.history, |s.history|);
  }

  lemma SignedStays(h: seq<Event>, h': seq<Event>, x: BlockId)
    requires h <= h' && Signed(KeysOf(B, h), x)
    ensures Signed(KeysOf(B, h'), x)
  {
    assert forall e :: e in h ==> e in h';
  }

  lemma VoteSigned(h: seq<Event>, i: nat)
    requires i < |h|
    ensures VoteOf(h[i]) in KeysOf(B, h).signed
  {
    assert h[i] in h;
  }

  lemma StageSound(run: seq<Action>, s: System)
    requires Setting(C, B) && Exec(C, B, run) == Some(s)
    ensures AllSound(s)
  {
    FourMembers();
    RunKeeps(C, B, run);
    InvSound(C, B, s);
  }

  lemma IsNext(replicas: map<Id, Replica>, i: Id, r': Replica, j: Id, l: Look)
    requires Is(replicas, j, l) && i != j
    ensures Is(replicas[i := r'], j, l)
  {
  }

  lemma ShowNext(replicas: map<Id, Replica>, looks: Looks, i: Id, r': Replica, l': Look)
    requires AllShow(replicas, looks) && i < 3 && r'.id == i && Shows(r', l')
    ensures AllShow(replicas[i := r'], Put(looks, i, l'))
  {
    if i != 0 { IsNext(replicas, i, r', 0, looks.l0); }
    if i != 1 { IsNext(replicas, i, r', 1, looks.l1); }
    if i != 2 { IsNext(replicas, i, r', 2, looks.l2); }
  }

  lemma SignedNext(h: seq<Event>, h': seq<Event>, voted: set<BlockId>)
    requires AllSigned(h, voted) && h <= h'
    ensures AllSigned(h', voted)
  {
    forall y | y in voted ensures Signed(KeysOf(B, h'), y) { SignedStays(h, h', y); }
  }

  lemma SignedMore(h: seq<Event>, voted: set<BlockId>, x: BlockId)
    requires AllSigned(h, voted) && Signed(KeysOf(B, h), x)
    ensures AllSigned(h, voted + {x})
  {
  }

  /** Replica `i` gets block `x`. */
  lemma Deliver1(run: seq<Action>, s: System, looks: Looks, voted: set<BlockId>, i: Id, x: BlockId)
    returns (run': seq<Action>, s': System)
    requires Stage(run, s, looks, voted) && i < 3 && Fits(Pick(looks, i), x) && (x.parent.Genesis? || x.parent in voted)
    ensures Stage(run', s', Put(looks, i, After(Pick(looks, i), x)), voted) && s.history <= s'.history
    ensures Vote(Height(x), x, i) in KeysOf(B, s'.history).signed
    ensures Committing(Pick(looks, i), After(Pick(looks, i), x), s, s')
  {
    var r';
    run', s', r' := GiveRun(run, s, i, Pick(looks, i), x);
    ShowNext(s.replicas, looks, i, r', After(Pick(looks, i), x));
    SignedNext(s.history, s'.history, voted);
  }

  predicate Committing(l: Look, l': Look, s: System, s': System) {
    s'.commits == if l'.exec == l.exec then s.commits else s.commits + [ChainBelow(l'.high)]
  }

  /** Replicas 1 and 2 both get block `x`, and it can be certified. */
  lemma Deliver2(run: seq<Action>, s: System, looks: Looks, voted: set<BlockId>, l: Look, x: BlockId)
    returns (run': seq<Action>, s': System, looks': Looks)
    requires Stage(run, s, looks, voted) && looks.l1 == l == looks.l2 && Fits(l, x)
    requires x.parent.Genesis? || x.parent in voted
    ensures Stage(run', s', looks', voted + {x}) && looks' == Looks(looks.l0, After(l, x), After(l, x))
  {
    var run1, s1 := Deliver1(run, s, looks, voted, 1, x);
    run', s' := Deliver1(run1, s1, looks.(l1 := After(l, x)), voted, 2, x);
    looks' := Looks(looks.l0, After(l, x), After(l, x));
    BothSigned(s1.history, s'.history, x);
    SignedMore(s'.history, voted, x);
  }

  lemma BothSigned(h: seq<Event>, h': seq<Event>, x: BlockId)
    requires h <= h' && Vote(Height(x), x, 1) in KeysOf(B, h).signed && Vote(Height(x), x, 2) in KeysOf(B, h').signed
    ensures Signed(KeysOf(B, h'), x)
  {
    assert forall e :: e in h ==> e in h';
  }

  // ---- the plan ----

  /** Heights of the chain that commits, and of the first rival block, which fits into a gap of the chain. */
  datatype Plan = Plan(h0: nat, h1: nat, h2: nat, w: nat)

  predicate PlanOk(p: Plan) {
    0 < p.h0 < p.h1 < p.h2 && p.h0 < p.w < p.h2 && p.w != p.h1
  }

  function A0(p: Plan): BlockId { Digest(0, p.h0, Genesis, "a") }
  function A1(p: Plan): BlockId { Digest(0, p.h1, A0(p), "") }
  function A2(p: Plan): BlockId { Digest(0, p.h2, A1(p), "") }
  function A3(p: Plan): BlockId { Digest(0, p.h2 + 1, A2(p), "") }
  function W0(p: Plan): BlockId { Digest(0, p.w, Genesis, "w") }
  function W1(p: Plan): BlockId { Digest(0, p.h2 + 1, W0(p), "") }
  function W2(p: Plan): BlockId { Digest(0, p.h2 + 2, W1(p), "") }
  function W3(p: Plan): BlockId { Digest(0, p.h2 + 3, W2(p), "") }

  const START: Look := Look({Genesis}, Genesis, Genesis, Genesis, 0, [])

  lemma Begin() returns (run: seq<Action>, s: System)
    ensures Stage(run, s, Looks(START, START, START), {}) && s.commits == []
  {
    FourMembers();
    run, s := [], Init(C, B);
    assert Tree({Genesis}) == map[Genesis := GenesisBlock(C)];
  }

  // ---- the looks along the plan ----

  /** The blocks `xs`, one after the other, take a replica through the looks `ls`. */
  predicate Chain(ls: seq<Look>, xs: seq<BlockId>) {
    |ls| == |xs| + 1 && forall i :: 0 <= i < |xs| ==> Fits(ls[i], xs[i]) && ls[i + 1] == After(ls[i], xs[i])
  }

  /** Every block comes after its parent. */
  predicate Parented(xs: seq<BlockId>) {
    forall i :: 0 <= i < |xs| ==> !xs[i].Genesis? && (xs[i].parent.Genesis? || xs[i].parent in xs[..i])
  }

  lemma ChainJoin(ls: seq<Look>, xs: seq<BlockId>, ls': seq<Look>, xs': seq<BlockId>)
    requires Chain(ls, xs) && Chain(ls', xs') && ls[|xs|] == ls'[0]
    ensures Chain(ls + ls'[1..], xs + xs')
  {
    var all, ys := ls + ls'[1..], xs + xs';
    forall i | 0 <= i < |ys| ensures Fits(all[i], ys[i]) && all[i + 1] == After(all[i], ys[i]) {
      if i >= |xs| { assert all[i] == ls'[i - |xs|] && all[i + 1] == ls'[i - |xs| + 1]; }
    }
  }

  /** After the first three blocks, whose order depends on where the gap is. */
  function Three(p: Plan): Look {
    Look({Genesis, A0(p), A1(p), W0(p)}, A0(p), Genesis, Genesis, if p.w > p.h1 then p.w else p.h1, [])
  }

  lemma UpperGap(p: Plan) returns (ls: seq<Look>)
    requires PlanOk(p) && p.w > p.h1
    ensures |ls| == 4 && ls[0] == START && ls[3] == Three(p) && Chain(ls, [A0(p), A1(p), W0(p)])
  {
    var la := Look({Genesis, A0(p)}, Genesis, Genesis, Genesis, p.h0, []);
    var lb := Look({Genesis, A0(p), A1(p)}, A0(p), Genesis, Genesis, p.h1, []);
    assert Fits(START, A0(p)) && After(START, A0(p)) == la;
    assert Fits(la, A1(p)) && After(la, A1(p)) == lb;
    assert Fits(lb, W0(p)) && After(lb, W0(p)) == Three(p);
    ls := [START, la, lb, Three(p)];
  }

  lemma LowerGap(p: Plan) returns (ls: seq<Look>)
    requires PlanOk(p) && p.w < p.h1
    ensures |ls| == 4 && ls[0] == START && ls[3] == Three(p) && Chain(ls, [A0(p), W0(p), A1(p)])
  {
    var la := Look({Genesis, A0(p)}, Genesis, Genesis, Genesis, p.h0, []);
    var lb := Look({Genesis, A0(p), W0(p)}, Genesis, Genesis, Genesis, p.w, []);
    assert Fits(START, A0(p)) && After(START, A0(p)) == la;
    assert Fits(la, W0(p)) && After(la, W0(p)) == lb;
    assert Fits(lb, A1(p)) && After(lb, A1(p)) == Three(p);
    ls := [START, la, lb, Three(p)];
  }

  /** After all six blocks: locked on the rival, although the chain has its three blocks. */
  function Six(p: Plan): Look {
    Look({Genesis, A0(p), A1(p), W0(p), A2(p), W1(p), W2(p)}, W1(p), W0(p), Genesis, p.h2 + 2, [])
  }

  lemma LastThree(p: Plan) returns (ls: seq<Look>)
    requires PlanOk(p)
    ensures |ls| == 4 && ls[0] == Three(p) && ls[3] == Six(p) && Chain(ls, [A2(p), W1(p), W2(p)])
  {
    var la := Look({Genesis, A0(p), A1(p), W0(p), A2(p)}, A1(p), A0(p), Genesis, p.h2, []);
    var lb := Look({Genesis, A0(p), A1(p), W0(p), A2(p), W1(p)}, if p.w > p.h1 then W0(p) else A1(p), A0(p), Genesis,
                   p.h2 + 1, []);
    assert Fits(Three(p), A2(p)) && After(Three(p), A2(p)) == la;
    assert Fits(la, W1(p)) && After(la, W1(p)) == lb;
    assert Fits(lb, W2(p)) && After(lb, W2(p)) == Six(p);
    ls := [Three(p), la, lb, Six(p)];
  }

  lemma VoterChain(p: Plan) returns (xs: seq<BlockId>, ls: seq<Look>)
    requires PlanOk(p)
    ensures |xs| == 6 && Chain(ls, xs) && Parented(xs) && ls[0] == START && ls[6] == Six(p)
    ensures A0(p) in xs && A1(p) in xs && A2(p) in xs && W0(p) in xs && W1(p) in xs && W2(p) in xs
  {
    var first: seq<BlockId>;
    if p.w > p.h1 {
      ls := UpperGap(p);
      first := [A0(p), A1(p), W0(p)];
    } else {
      ls := LowerGap(p);
      first := [A0(p), W0(p), A1(p)];
    }
    var last := LastThree(p);
    ChainJoin(ls, first, last, [A2(p), W1(p), W2(p)]);
    ls := ls + last[1..];
    xs := first + [A2(p), W1(p), W2(p)];
    SixParented(p, xs);
  }

  lemma SixParented(p: Plan, xs: seq<BlockId>)
    requires xs == [A0(p), A1(p), W0(p), A2(p), W1(p), W2(p)] || xs == [A0(p), W0(p), A1(p), A2(p), W1(p), W2(p)]
    ensures Parented(xs)
  {
    assert xs[0] in xs[..1] && xs[0] in xs[..2] && xs[1] in xs[..3] && xs[2] in xs[..3] && xs[1] in xs[..4]
           && xs[2] in xs[..4] && xs[4] in xs[..5];
  }

  // ---- the looks of the two replicas that commit ----

  lemma {:induction false} SpanOne(know: set<BlockId>, x: BlockId)
    requires x in know && !x.Genesis? && x.parent.Genesis?
    ensures Span(Tree(know), x, Genesis) == [x]
  {
    assert Span(Tree(know), Genesis, Genesis) == [];
  }

  /** Replica 1 learns that the third rival is certified. */
  lemma RivalCommits(p: Plan)
    requires PlanOk(p)
    ensures Fits(Six(p), W3(p))
    ensures var l := After(Six(p), W3(p)); l.exec == W0(p) && l.committed == [W0(p)] && l.high == W2(p)
  {
    SpanOne(Six(p).know + {W3(p)}, W0(p));
  }

  /** Replica 0 hears only of the chain. */
  lemma ChainCommits(p: Plan) returns (ls: seq<Look>)
    requires PlanOk(p)
    ensures |ls| == 5 && ls[0] == START && Chain(ls, [A0(p), A1(p), A2(p), A3(p)])
    ensures ls[4].exec == A0(p) && ls[4].committed == [A0(p)] && ls[4].high == A2(p)
    ensures ls[1].exec.Genesis? && ls[2].exec.Genesis? && ls[3].exec.Genesis?
  {
    var la := Look({Genesis, A0(p)}, Genesis, Genesis, Genesis, p.h0, []);
    var lb := Look({Genesis, A0(p), A1(p)}, A0(p), Genesis, Genesis, p.h1, []);
    var ld := Look({Genesis, A0(p), A1(p), A2(p)}, A1(p), A0(p), Genesis, p.h2, []);
    assert Fits(START, A0(p)) && After(START, A0(p)) == la;
    assert Fits(la, A1(p)) && After(la, A1(p)) == lb;
    assert Fits(lb, A2(p)) && After(lb, A2(p)) == ld;
    ChainEnds(p, ld);
    ls := [START, la, lb, ld, After(ld, A3(p))];
  }

  lemma ChainEnds(p: Plan, l: Look)
    requires PlanOk(p) && l == Look({Genesis, A0(p), A1(p), A2(p)}, A1(p), A0(p), Genesis, p.h2, [])
    ensures Fits(l, A3(p))
    ensures var l' := After(l, A3(p)); l'.exec == A0(p) && l'.committed == [A0(p)] && l'.high == A2(p)
  {
    SpanOne(l.know + {A3(p)}, A0(p));
  }

  // ---- the runs ----

  function SetOf(xs: seq<BlockId>): set<BlockId> {
    set x | x in xs
  }

  lemma SetOfMore(xs: seq<BlockId>, n: nat)
    requires n < |xs|
    ensures SetOf(xs[..n]) + {xs[n]} == SetOf(xs[..n + 1])
  {
    assert xs[..n + 1] == xs[..n] + [xs[n]];
  }

  /** Replicas 1 and 2 get the first `n` blocks. */
  lemma {:induction false} Canvass(xs: seq<BlockId>, ls: seq<Look>, n: nat) returns (run: seq<Action>, s: System)
    requires Chain(ls, xs) && Parented(xs) && ls[0] == START && n <= |xs|
    ensures Stage(run, s, Looks(START, ls[n], ls[n]), SetOf(xs[..n]))
  {
    if n == 0 {
      run, s := Begin();
      assert SetOf(xs[..0]) == {};
    } else {
      run, s := Canvass(xs, ls, n - 1);
      var t;
      assert Fits(ls[n - 1], xs[n - 1]) && ls[n - 1 + 1] == After(ls[n - 1], xs[n - 1]);
      run, s, t := Deliver2(run, s, Looks(START, ls[n - 1], ls[n - 1]), SetOf(xs[..n - 1]), ls[n - 1], xs[n - 1]);
      SetOfMore(xs, n - 1);
    }
  }

  /** Replica 0 gets the first `n` of its blocks, whose parents are all certified. */
  lemma {:induction false} Follow(run: seq<Action>, s: System, l: Look, l2: Look, voted: set<BlockId>,
                                  xs: seq<BlockId>, ls: seq<Look>, n: nat) returns (run': seq<Action>, s': System)
    requires Stage(run, s, Looks(START, l, l2), voted) && Chain(ls, xs) && ls[0] == START && n <= |xs|
    requires forall i :: 0 <= i < |xs| ==> xs[i].parent.Genesis? || xs[i].parent in voted
    ensures Stage(run', s', Looks(ls[n], l, l2), voted)
    ensures n > 0 && ls[n].exec != ls[n - 1].exec ==> ChainBelow(ls[n].high) in s'.commits
  {
    run', s' := run, s;
    if n > 0 {
      run', s' := Follow(run, s, l, l2, voted, xs, ls, n - 1);
      assert Fits(ls[n - 1], xs[n - 1]) && ls[n - 1 + 1] == After(ls[n - 1], xs[n - 1]);
      run', s' := Deliver1(run', s', Looks(ls[n - 1], l, l2), voted, 0, xs[n - 1]);
    }
  }

  /** All six blocks are certified. */
  predicate Ready(p: Plan, voted: set<BlockId>) {
    A0(p) in voted && A1(p) in voted && A2(p) in voted && W0(p) in voted && W1(p) in voted && W2(p) in voted
  }

  lemma CanvassAll(xs: seq<BlockId>, ls: seq<Look>, l: Look) returns (run: seq<Action>, s: System)
    requires Chain(ls, xs) && Parented(xs) && ls[0] == START && l == ls[|xs|]
    ensures Stage(run, s, Looks(START, l, l), SetOf(xs))
  {
    run, s := Canvass(xs, ls, |xs|);
    assert xs[..|xs|] == xs;
  }

  lemma SixVoted(p: Plan) returns (run: seq<Action>, s: System, voted: set<BlockId>)
    requires PlanOk(p)
    ensures Stage(run, s, Looks(START, Six(p), Six(p)), voted) && Ready(p, voted)
  {
    var xs, ls := VoterChain(p);
    voted := SetOf(xs);
    assert Ready(p, voted);
    run, s := CanvassAll(xs, ls, Six(p));
  }

  lemma RivalExecuted(p: Plan) returns (run: seq<Action>, s: System, l: Look, voted: set<BlockId>)
    requires PlanOk(p)
    ensures Stage(run, s, Looks(START, l, Six(p)), voted) && Ready(p, voted) && l.exec == W0(p) && l.committed == [W0(p)]
  {
    run, s, voted := SixVoted(p);
    RivalCommits(p);
    run, s := Deliver1(run, s, Looks(START, Six(p), Six(p)), voted, 1, W3(p));
    l := After(Six(p), W3(p));
  }

  /** A run in which a chain at these heights commits its first block, and another correct replica commits a rival. */
  lemma RivalRun(p: Plan) returns (run: seq<Action>, s: System, looks: Looks)
    requires PlanOk(p)
    ensures Setting(C, B) && Exec(C, B, run) == Some(s) && AllShow(s.replicas, looks)
    ensures looks.l0.exec == A0(p) && looks.l0.committed == [A0(p)] && looks.l1.exec == W0(p) && looks.l1.committed == [W0(p)]
    ensures (A0(p), A1(p), A2(p)) in s.commits
  {
    var l1, voted;
    run, s, l1, voted := RivalExecuted(p);
    var zs := ChainCommits(p);
    run, s := Follow(run, s, l1, Six(p), voted, [A0(p), A1(p), A2(p), A3(p)], zs, 4);
    looks := Looks(zs[4], l1, Six(p));
    assert ChainBelow(A2(p)) == (A0(p), A1(p), A2(p));
  }

  /** The chain `t` has committed its first block at replica 0, and replica 1 has committed a block above it that is in
      conflict with it. */
  predicate InConflict(s: System, t: (BlockId, BlockId, BlockId)) {
    && t in s.commits && 0 in s.replicas && 1 in s.replicas
    && var x, y := s.replicas[0], s.replicas[1];
       && x.bExec == t.0 && Height(y.bExec) > Height(t.0) && !Extends(y.bExec, t.0)
       && !(x.committed <= y.committed) && !(y.committed <= x.committed)
  }

  lemma RivalsConflict(p: Plan, s: System, looks: Looks)
    requires PlanOk(p) && AllShow(s.replicas, looks) && (A0(p), A1(p), A2(p)) in s.commits
    requires looks.l0.exec == A0(p) && looks.l0.committed == [A0(p)]
    requires looks.l1.exec == W0(p) && looks.l1.committed == [W0(p)]
    ensures InConflict(s, (A0(p), A1(p), A2(p)))
  {
    assert !Extends(Genesis, A0(p));
    assert [A0(p)][0] != [W0(p)][0];
  }

  /** Whenever the heights of a chain of three are not consecutive, agreement can fail: some run commits such a chain at
      one correct replica and a block in conflict with it at another, so that neither has committed a prefix of what the
      other has. */
  lemma GapsBreakAgreement(h0: nat, h1: nat, h2: nat)
    returns (run: seq<Action>, s: System, t: (BlockId, BlockId, BlockId))
    requires 0 < h0 < h1 < h2 && !(h1 == h0 + 1 && h2 == h1 + 1)
    ensures Setting(C, B) && B <= C.members && Exec(C, B, run) == Some(s) && InConflict(s, t)
    ensures Height(t.0) == h0 && Height(t.1) == h1 && Height(t.2) == h2
  {
    var p := Plan(h0, h1, h2, if h1 > h0 + 1 then h0 + 1 else h1 + 1);
    var looks;
    run, s, looks := RivalRun(p);
    t := (A0(p), A1(p), A2(p));
    RivalsConflict(p, s, looks);
    FourMembers();
  }

  // ---- exactly the consecutive heights ----

  /** In the outcome of the run, `i` is a chain committed at these heights and `r` a replica that has committed at least
      as high. */
  ghost predicate Concerns(c: Config, byzantine: set<Id>, run: seq<Action>, i: nat, r: Id, h0: nat, h1: nat, h2: nat) {
    && Setting(c, byzantine) && byzantine <= c.members && Exec(c, byzantine, run).Some?
    && var s := Exec(c, byzantine, run).value;
       && i < |s.commits| && r in s.replicas && Height(s.replicas[r].bExec) >= h0
       && Height(s.commits[i].0) == h0 && Height(s.commits[i].1) == h1 && Height(s.commits[i].2) == h2
  }

  /** In no run does a correct replica commit a block in conflict with a chain that was committed at these heights. */
  ghost predicate Safe(h0: nat, h1: nat, h2: nat) {
    forall c: Config, byzantine: set<Id>, run: seq<Action>, i: nat, r: Id ::
      Concerns(c, byzantine, run, i, r, h0, h1, h2) ==>
      var s := Exec(c, byzantine, run).value; Extends(s.replicas[r].bExec, s.commits[i].0)
  }

  lemma TightIsSafe(c: Config, byzantine: set<Id>, run: seq<Action>, i: nat, r: Id, h0: nat)
    requires Concerns(c, byzantine, run, i, r, h0, h0 + 1, h0 + 2)
    ensures var s := Exec(c, byzantine, run).value; Extends(s.replicas[r].bExec, s.commits[i].0)
  {
    RunKeeps(c, byzantine, run);
    TightBelow(c, byzantine, Exec(c, byzantine, run).value, i, r, h0);
  }

  lemma TightBelow(c: Config, byzantine: set<Id>, s: System, i: nat, r: Id, h0: nat)
    requires Inv(c, byzantine, s) && i < |s.commits| && r in s.replicas && Height(s.replicas[r].bExec) >= h0
    requires Height(s.commits[i].0) == h0 && Height(s.commits[i].1) == h0 + 1 && Height(s.commits[i].2) == h0 + 2
    ensures Extends(s.replicas[r].bExec, s.commits[i].0)
  {
    var t := s.commits[i];
    assert t in s.commits;
    CommittedCertified(c, byzantine, s, s.replicas[r].bExec);
    CertifiedExtends(c, byzantine, s.history, t.0, t.1, t.2, s.replicas[r].bExec);
  }

  /** Consecutive heights are the exact condition. */
  lemma ConsecutiveIff(h0: nat, h1: nat, h2: nat)
    requires 0 < h0 < h1 < h2
    ensures Safe(h0, h1, h2) <==> h1 == h0 + 1 && h2 == h1 + 1
  {
    if h1 == h0 + 1 && h2 == h1 + 1 {
      forall c: Config, byzantine: set<Id>, run: seq<Action>, i: nat, r: Id | Concerns(c, byzantine, run, i, r, h0, h1, h2)
        ensures var s := Exec(c, byzantine, run).value; Extends(s.replicas[r].bExec, s.commits[i].0)
      {
        TightIsSafe(c, byzantine, run, i, r, h0);
      }
    } else {
      var run, s, t := GapsBreakAgreement(h0, h1, h2);
      var i :| 0 <= i < |s.commits| && s.commits[i] == t;
      assert Concerns(C, B, run, i, 1, h0, h1, h2);
    }
  }
}
