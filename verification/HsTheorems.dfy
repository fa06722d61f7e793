/** Agreement of Chained HotStuff, over every run of one view and one epoch with 3f + 1 members of which at most f, the
    leader possibly among them, are Byzantine. Correct replicas may crash at any point of any handler and restart from
    their durable log. */
module HsTheorems {
  import opened Options
  import opened HsTypes
  import opened HsSpec
  import opened HsRecovery
  import opened HsDurable
  import opened HsOnce
  import opened HsQuorum
  import opened HsHistory
  import opened HsSystem
  import opened HsInvariant
  import opened HsSafety
  import opened HsSteps
  import opened HsCrash

  lemma InitOk(c: Config, byzantine: set<Id>)
    requires Setting(c, byzantine) && byzantine <= c.members
    ensures Inv(c, byzantine, Init(c, byzantine))
  {
    var s := Init(c, byzantine);
    forall r | r in s.replicas ensures NamedOk(c, byzantine, s, r) && Tracks(c, s.replicas[r]) {
      FreshTracks(c, r);
    }
  }

  /** The outcome of a run; `None` if some action was not possible when its turn came. */
  ghost function Exec(c: Config, byzantine: set<Id>, run: seq<Action>): Option<System>
    requires Setting(c, byzantine)
    decreases |run|
  {
    if run == [] then Some(Init(c, byzantine))
    else
      match Exec(c, byzantine, run[..|run| - 1])
      case None => None
      case Some(s) =>
        var a := run[|run| - 1];
        if AllSound(s) && Enabled(c, s, a) then Some(Step(c, byzantine, s, a)) else None
  }

  lemma {:induction false} RunKeeps(c: Config, byzantine: set<Id>, run: seq<Action>)
    requires Setting(c, byzantine) && byzantine <= c.members && Exec(c, byzantine, run).Some?
    ensures Inv(c, byzantine, Exec(c, byzantine, run).value)
    decreases |run|
  {
    if run == [] {
      InitOk(c, byzantine);
    } else {
      RunKeeps(c, byzantine, run[..|run| - 1]);
      InvSound(c, byzantine, Exec(c, byzantine, run[..|run| - 1]).value);
      StepKeeps(c, byzantine, Exec(c, byzantine, run[..|run| - 1]).value, run[|run| - 1]);
    }
  }

  // ---- what a run shows ----

  /** At most one block is ever certified at a height. */
  lemma CertificatesUnique(c: Config, byzantine: set<Id>, run: seq<Action>, a: BlockId, b: BlockId)
    requires Setting(c, byzantine) && byzantine <= c.members && Exec(c, byzantine, run).Some?
    requires var h := Exec(c, byzantine, run).value.history;
             Certified(c, byzantine, h, a) && Certified(c, byzantine, h, b) && Height(a) == Height(b)
    ensures a == b
  {
    RunKeeps(c, byzantine, run);
    OnePerHeight(c, byzantine, Exec(c, byzantine, run).value.history, a, b);
  }

  lemma {:induction false} PathPrefix(b: BlockId, a: BlockId)
    requires Extends(b, a)
    ensures Path(a) <= Path(b)
    decreases b
  {
    if b != a { PathPrefix(b.parent, a); }
  }

  /** A committed block, and every certified block at least as high, are on one branch. */
  lemma CommittedBelow(c: Config, byzantine: set<Id>, s: System, b: BlockId, w: BlockId)
    requires Inv(c, byzantine, s) && AllTight(s.commits) && Committed(s, b)
    requires Certified(c, byzantine, s.history, w) && Height(w) >= Height(b)
    ensures Extends(w, b)
  {
    if b.Genesis? {
      ExtendsGenesis(w);
    } else {
      var i :| 0 <= i < |s.commits| && s.commits[i].0 == b;
      var t := s.commits[i];
      assert t in s.commits;
      CertifiedExtends(c, byzantine, s.history, t.0, t.1, t.2, w);
    }
  }

  lemma CommittedCertified(c: Config, byzantine: set<Id>, s: System, b: BlockId)
    requires Inv(c, byzantine, s) && Committed(s, b)
    ensures Certified(c, byzantine, s.history, b)
  {
    if !b.Genesis? {
      var i :| 0 <= i < |s.commits| && s.commits[i].0 == b;
      var t := s.commits[i];
      assert t in s.commits;
      CertifiedParent(c, byzantine, s.history, t.2);
      CertifiedParent(c, byzantine, s.history, t.1);
    }
  }

  /** Every certified block at or above the committed block of a correct replica extends it. */
  lemma CertifiedExtendsCommitted(c: Config, byzantine: set<Id>, run: seq<Action>, r: Id, w: BlockId)
    requires Setting(c, byzantine) && byzantine <= c.members && Exec(c, byzantine, run).Some?
    requires var s := Exec(c, byzantine, run).value;
             && AllTight(s.commits) && r in s.replicas && Certified(c, byzantine, s.history, w)
             && Height(w) >= Height(s.replicas[r].bExec)
    ensures Extends(w, Exec(c, byzantine, run).value.replicas[r].bExec)
  {
    RunKeeps(c, byzantine, run);
    var s := Exec(c, byzantine, run).value;
    CommittedBelow(c, byzantine, s, s.replicas[r].bExec, w);
  }

  /** Agreement: what two correct replicas have committed differs at most in length, as long as every commit was made by
      a chain at consecutive heights. */
  lemma Agreement(c: Config, byzantine: set<Id>, run: seq<Action>, r1: Id, r2: Id)
    requires Setting(c, byzantine) && byzantine <= c.members && Exec(c, byzantine, run).Some?
    requires var s := Exec(c, byzantine, run).value; AllTight(s.commits) && r1 in s.replicas && r2 in s.replicas
    ensures var s := Exec(c, byzantine, run).value;
            s.replicas[r1].committed <= s.replicas[r2].committed || s.replicas[r2].committed <= s.replicas[r1].committed
  {
    RunKeeps(c, byzantine, run);
    var s := Exec(c, byzantine, run).value;
    var b1, b2 := s.replicas[r1].bExec, s.replicas[r2].bExec;
    CommittedCertified(c, byzantine, s, b1);
    CommittedCertified(c, byzantine, s, b2);
    if Height(b1) <= Height(b2) {
      CommittedBelow(c, byzantine, s, b1, b2);
      PathPrefix(b2, b1);
    } else {
      CommittedBelow(c, byzantine, s, b2, b1);
      PathPrefix(b1, b2);
    }
  }

  /** Every walk of `commitUpToLocked` has met the committed block: what a replica has committed is exactly the branch
      from the root to its committed block. */
  lemma CommittedIsBranch(c: Config, byzantine: set<Id>, run: seq<Action>, r: Id)
    requires Setting(c, byzantine) && byzantine <= c.members && Exec(c, byzantine, run).Some?
    requires var s := Exec(c, byzantine, run).value; AllTight(s.commits) && r in s.replicas
    ensures var x := Exec(c, byzantine, run).value.replicas[r]; x.committed == Path(x.bExec)
  {
    RunKeeps(c, byzantine, run);
  }

  // ---- gap-free runs ----

  /** No correct replica has voted for a block that skips heights. */
  predicate GapFree(h: seq<Event>) {
    forall e :: e in h ==> !e.block.Genesis? && Height(e.block) == Height(e.block.parent) + 1
  }

  /** Without gaps in the heights, every commit is made at consecutive heights. */
  lemma GapFreeIsTight(c: Config, byzantine: set<Id>, run: seq<Action>)
    requires Setting(c, byzantine) && byzantine <= c.members && Exec(c, byzantine, run).Some?
    requires GapFree(Exec(c, byzantine, run).value.history)
    ensures AllTight(Exec(c, byzantine, run).value.commits)
  {
    RunKeeps(c, byzantine, run);
    var s := Exec(c, byzantine, run).value;
    forall t | t in s.commits ensures Triple(t.0, t.1, t.2) {
      CertifiedParent(c, byzantine, s.history, t.2);
      var i := CorrectVoter(c, byzantine, s.history, t.2);
      var j := CorrectVoter(c, byzantine, s.history, t.1);
      assert s.history[i] in s.history && s.history[j] in s.history;
    }
  }

  // ---- over time ----

  lemma {:induction false} RunProgress(c: Config, byzantine: set<Id>, run: seq<Action>, more: seq<Action>)
    requires Setting(c, byzantine) && byzantine <= c.members && Exec(c, byzantine, run + more).Some?
    ensures Exec(c, byzantine, run).Some?
    ensures Progress(Exec(c, byzantine, run).value, Exec(c, byzantine, run + more).value)
    decreases |more|
  {
    if more == [] {
      assert run + more == run;
    } else {
      var last := run + more[..|more| - 1];
      assert (run + more)[..|run + more| - 1] == last;
      RunProgress(c, byzantine, run, more[..|more| - 1]);
      RunKeeps(c, byzantine, last);
      var s, a := Exec(c, byzantine, last).value, more[|more| - 1];
      assert (run + more)[|run + more| - 1] == a;
      InvSound(c, byzantine, s);
      StepKeeps(c, byzantine, s, a);
      ProgressChain(Exec(c, byzantine, run).value, s, Step(c, byzantine, s, a));
    }
  }

  lemma ProgressChain(s: System, s': System, s'': System)
    requires Progress(s, s') && Progress(s', s'')
    ensures Progress(s, s'')
  {
  }

  lemma StillCommitted(s: System, s': System, b: BlockId)
    requires Progress(s, s') && Committed(s, b)
    ensures Committed(s', b)
  {
    if !b.Genesis? {
      var i :| 0 <= i < |s.commits| && s.commits[i].0 == b;
      assert s'.commits[i].0 == b;
    }
  }

  /** Nothing that was committed is ever taken back, not even by a crash. */
  lemma CommittedGrows(c: Config, byzantine: set<Id>, run: seq<Action>, more: seq<Action>, r: Id)
    requires Setting(c, byzantine) && byzantine <= c.members && Exec(c, byzantine, run + more).Some?
    requires var s := Exec(c, byzantine, run + more).value; AllTight(s.commits) && r in s.replicas
    ensures Exec(c, byzantine, run).Some? && r in Exec(c, byzantine, run).value.replicas
    ensures Exec(c, byzantine, run).value.replicas[r].committed
            <= Exec(c, byzantine, run + more).value.replicas[r].committed
  {
    RunProgress(c, byzantine, run, more);
    RunKeeps(c, byzantine, run);
    RunKeeps(c, byzantine, run + more);
    var s, s' := Exec(c, byzantine, run).value, Exec(c, byzantine, run + more).value;
    assert AllTight(s.commits) by { assert forall t :: t in s.commits ==> t in s'.commits; }
    LaterBranch(c, byzantine, s, s', s.replicas[r], s'.replicas[r]);
  }

  lemma LaterBranch(c: Config, byzantine: set<Id>, s: System, s': System, x: Replica, x': Replica)
    requires Inv(c, byzantine, s') && Progress(s, s') && AllTight(s'.commits)
    requires ExecOk(s, x) && ExecOk(s', x') && Height(x.bExec) <= Height(x'.bExec)
    ensures x.committed <= x'.committed
  {
    StillCommitted(s, s', x.bExec);
    CommittedCertified(c, byzantine, s', x'.bExec);
    CommittedBelow(c, byzantine, s', x.bExec, x'.bExec);
    PathPrefix(x'.bExec, x.bExec);
  }

  /** Whenever a replica moves its committed block, in whatever step, the walk down from the new one meets the old one:
      what it collects is exactly the branch in between. */
  lemma CommitWalksMeet(c: Config, byzantine: set<Id>, run: seq<Action>, a: Action, r: Id)
    requires Setting(c, byzantine) && byzantine <= c.members && Exec(c, byzantine, run + [a]).Some?
    requires var s := Exec(c, byzantine, run + [a]).value; AllTight(s.commits) && r in s.replicas
    ensures Exec(c, byzantine, run).Some? && r in Exec(c, byzantine, run).value.replicas
    ensures var x, x' := Exec(c, byzantine, run).value.replicas[r], Exec(c, byzantine, run + [a]).value.replicas[r];
            Extends(x'.bExec, x.bExec) && Path(x'.bExec) == Path(x.bExec) + Span(x'.blocks, x'.bExec, x.bExec)
  {
    RunProgress(c, byzantine, run, [a]);
    RunKeeps(c, byzantine, run);
    RunKeeps(c, byzantine, run + [a]);
    var s, s' := Exec(c, byzantine, run).value, Exec(c, byzantine, run + [a]).value;
    WalkMeets(c, byzantine, s, s', s.replicas[r].bExec, s'.replicas[r]);
  }

  lemma WalkMeets(c: Config, byzantine: set<Id>, s: System, s': System, b: BlockId, x': Replica)
    requires Inv(c, byzantine, s') && Progress(s, s') && AllTight(s'.commits) && Committed(s, b)
    requires Sound(x') && Committed(s', x'.bExec) && Height(b) <= Height(x'.bExec)
    ensures Extends(x'.bExec, b) && Path(x'.bExec) == Path(b) + Span(x'.blocks, x'.bExec, b)
  {
    StillCommitted(s, s', b);
    CommittedCertified(c, byzantine, s', x'.bExec);
    CommittedBelow(c, byzantine, s', b, x'.bExec);
    SpanIsPath(x', x'.bExec, b);
  }

  /** Agreement across time: what one correct replica has committed at one point of a run and another at a later point
      are never in conflict. */
  lemma AgreementOverTime(c: Config, byzantine: set<Id>, run: seq<Action>, more: seq<Action>, r1: Id, r2: Id)
    requires Setting(c, byzantine) && byzantine <= c.members && Exec(c, byzantine, run + more).Some?
    requires var s := Exec(c, byzantine, run + more).value; AllTight(s.commits) && r1 in s.replicas && r2 in s.replicas
    ensures Exec(c, byzantine, run).Some? && r1 in Exec(c, byzantine, run).value.replicas
    ensures var e1, e2 := Exec(c, byzantine, run).value.replicas[r1].committed,
                          Exec(c, byzantine, run + more).value.replicas[r2].committed;
            e1 <= e2 || e2 <= e1
  {
    CommittedGrows(c, byzantine, run, more, r1);
    Agreement(c, byzantine, run + more, r1, r2);
  }

  // ---- across crashes ----

  /** Replica `r` does not crash in the run; others may. */
  predicate Steady(c: Config, run: seq<Action>, r: Id) {
    forall i :: 0 <= i < |run| ==> !(run[i].Crash? && Actor(c, run[i]) == r)
  }

  /** No correct replica executes a command twice, wherever it crashes; commands run in the order of the branch. */
  lemma CommandsRunOnce(c: Config, byzantine: set<Id>, run: seq<Action>, r: Id, i: nat, k: nat)
    requires Setting(c, byzantine) && byzantine <= c.members && Exec(c, byzantine, run).Some?
    requires var s := Exec(c, byzantine, run).value; AllTight(s.commits) && r in s.replicas && i < k < |s.replicas[r].journal|
    requires var j := Exec(c, byzantine, run).value.replicas[r].journal; j[i].Run? && j[k].Run?
    ensures var x := Exec(c, byzantine, run).value.replicas[r];
            && x.journal[i].block != x.journal[k].block && Extends(x.journal[k].block, x.journal[i].block)
            && Extends(x.bExec, x.journal[k].block)
  {
    RunKeeps(c, byzantine, run);
    var s := Exec(c, byzantine, run).value;
    var x := s.replicas[r];
    assert ExecOk(s, x);
    CommittedCertified(c, byzantine, s, x.bExec);
    CertifiedRises(c, byzantine, s.history, x.bExec);
    SameBranch(x.bExec, x.journal[k].block, x.journal[i].block);
  }

  /** Of two ancestors of a block, the higher one extends the lower one. */
  lemma {:induction false} SameBranch(b: BlockId, high: BlockId, low: BlockId)
    requires Rising(b) && Extends(b, high) && Extends(b, low) && Height(low) < Height(high)
    ensures Extends(high, low)
    decreases b
  {
    if b == low {
      RisingAbove(b, high);
    } else if b != high {
      SameBranch(b.parent, high, low);
    }
  }

  /** All commands that correct replicas have really run lie on one branch, wherever they crashed: of any two, one block
      extends the other. */
  lemma RunsOnOneBranch(c: Config, byzantine: set<Id>, run: seq<Action>, r1: Id, r2: Id, i: nat, k: nat)
    requires Setting(c, byzantine) && byzantine <= c.members && Exec(c, byzantine, run).Some?
    requires var s := Exec(c, byzantine, run).value;
             && AllTight(s.commits) && r1 in s.replicas && r2 in s.replicas
             && i < |s.replicas[r1].journal| && k < |s.replicas[r2].journal|
    requires var s := Exec(c, byzantine, run).value; s.replicas[r1].journal[i].Run? && s.replicas[r2].journal[k].Run?
    ensures var s := Exec(c, byzantine, run).value;
            var a, b := s.replicas[r1].journal[i].block, s.replicas[r2].journal[k].block;
            Extends(a, b) || Extends(b, a)
  {
    RunKeeps(c, byzantine, run);
    var s := Exec(c, byzantine, run).value;
    var x1, x2 := s.replicas[r1], s.replicas[r2];
    assert ExecOk(s, x1) && ExecOk(s, x2);
    if Height(x1.bExec) <= Height(x2.bExec) {
      RunsBelowTop(c, byzantine, s, x1.bExec, x2.bExec, x1.journal[i].block, x2.journal[k].block);
    } else {
      RunsBelowTop(c, byzantine, s, x2.bExec, x1.bExec, x2.journal[k].block, x1.journal[i].block);
    }
  }

  lemma RunsBelowTop(c: Config, byzantine: set<Id>, s: System, b: BlockId, top: BlockId, x: BlockId, y: BlockId)
    requires Inv(c, byzantine, s) && AllTight(s.commits) && Committed(s, b) && Committed(s, top)
    requires Height(b) <= Height(top) && Extends(b, x) && Extends(top, y)
    ensures Extends(x, y) || Extends(y, x)
  {
    CommittedCertified(c, byzantine, s, top);
    CertifiedRises(c, byzantine, s.history, top);
    CommittedBelow(c, byzantine, s, b, top);
    ExtendsTransitive(top, b, x);
    OneBranch(top, x, y);
  }

  /** Two ancestors of one block are on one branch. */
  lemma {:induction false} OneBranch(b: BlockId, x: BlockId, y: BlockId)
    requires Extends(b, x) && Extends(b, y)
    ensures Extends(x, y) || Extends(y, x)
    decreases b
  {
    if b != x && b != y { OneBranch(b.parent, x, y); }
  }

  /** The votes that leave a replica rise in height, across any number of crashes and restarts. */
  lemma VotesAlwaysRise(c: Config, byzantine: set<Id>, run: seq<Action>, r: Id, i: nat, k: nat)
    requires Setting(c, byzantine) && byzantine <= c.members && Exec(c, byzantine, run).Some?
    requires var s := Exec(c, byzantine, run).value; r in s.replicas && i < k < |s.replicas[r].journal|
    requires var j := Exec(c, byzantine, run).value.replicas[r].journal; j[i].Send? && j[k].Send?
    ensures var j := Exec(c, byzantine, run).value.replicas[r].journal; j[i].vote.height < j[k].vote.height
  {
    RunKeeps(c, byzantine, run);
    var s := Exec(c, byzantine, run).value;
    assert Tracks(c, s.replicas[r]);
  }

  /** A crash between handlers loses neither the highest certificate nor the lock nor the committed block, and restores a
      vote height at or above every vote that has left the replica. */
  lemma RecoveryRestores(c: Config, byzantine: set<Id>, run: seq<Action>, r: Id)
    requires Setting(c, byzantine) && byzantine <= c.members && Exec(c, byzantine, run).Some?
    requires r in Exec(c, byzantine, run).value.replicas
    ensures var x := Exec(c, byzantine, run).value.replicas[r]; var x' := Recover(c, r, x.journal);
            && x'.blocks == x.blocks && x'.qcHigh == x.qcHigh && x'.bLock == x.bLock && x'.bExec == x.bExec
            && x'.vHeight <= x.vHeight && (AllDurable(run) ==> x'.vHeight == x.vHeight)
            && forall i :: 0 <= i < |x.journal| && x.journal[i].Send? ==> x.journal[i].vote.height <= x'.vHeight
  {
    RunKeeps(c, byzantine, run);
    var s := Exec(c, byzantine, run).value;
    var x := s.replicas[r];
    assert Tracks(c, x);
    RecoverFinds(c, r, x.journal, SummaryOf(x, VotedUpTo(c, x.journal)));
    if AllDurable(run) { HeightsDurable(c, byzantine, run); }
  }

  predicate Durable(a: Action) {
    match a
    case Deliver(_, _, _, durable) => durable
    case Crash(during, _) => Durable(during)
    case _ => true
  }

  /** Every write of a vote height succeeds. */
  predicate AllDurable(run: seq<Action>) {
    forall i :: 0 <= i < |run| ==> Durable(run[i])
  }

  predicate Recorded(c: Config, s: System) {
    forall r :: r in s.replicas ==> s.replicas[r].vHeight == VotedUpTo(c, s.replicas[r].journal)
  }

  lemma {:induction false} HeightsDurable(c: Config, byzantine: set<Id>, run: seq<Action>)
    requires Setting(c, byzantine) && byzantine <= c.members && Exec(c, byzantine, run).Some? && AllDurable(run)
    ensures Recorded(c, Exec(c, byzantine, run).value)
    decreases |run|
  {
    if run == [] {
    } else {
      var before, a := run[..|run| - 1], run[|run| - 1];
      HeightsDurable(c, byzantine, before);
      RunKeeps(c, byzantine, before);
      StepRecords(c, byzantine, Exec(c, byzantine, before).value, a);
    }
  }

  lemma ActedRecords(c: Config, byzantine: set<Id>, s: System, a: Action)
    requires Inv(c, byzantine, s) && AllSound(s) && Enabled(c, s, a) && !a.Crash? && Durable(a)
    requires var r := s.replicas[Actor(c, a)]; r.vHeight == VotedUpTo(c, r.journal)
    ensures var r' := Acted(c, byzantine, s, a); r'.vHeight == VotedUpTo(c, r'.journal)
  {
    var r := s.replicas[Actor(c, a)];
    assert NamedOk(c, byzantine, s, Actor(c, a)) && Tracks(c, r);
    match a
    case Collect(v) => CountRecords(c, KeysOf(byzantine, s.history), r, v);
    case ProposeNext(cmd) => ProposeRecords(c, byzantine, s.history, r, cmd);
    case Deliver(to, p, signed, durable) =>
      if Acceptable(c, KeysOf(byzantine, s.history), r, p, signed) {
        DeliverRecords(c, KeysOf(byzantine, s.history), r, p.block);
        ActedDeliver(c, byzantine, s, a);
      } else {
        RefusedShape(c, byzantine, s, a);
      }
  }

  lemma CountRecords(c: Config, k: Keys, r: Replica, v: Vote)
    requires c.members != {} && Sound(r) && Tracks(c, r) && r.vHeight == VotedUpTo(c, r.journal)
    ensures var r' := VoteForBlock(c, k, r, v); r'.vHeight == VotedUpTo(c, r'.journal)
  {
    CountTracks(c, k, r, v);
    CountShape(c, k, r, v);
  }

  lemma ProposeRecords(c: Config, byzantine: set<Id>, h: seq<Event>, r: Replica, cmd: string)
    requires c.members != {} && Sound(r) && Tracks(c, r) && r.vHeight == VotedUpTo(c, r.journal) && MayPropose(c, r)
    ensures var r' := Propose(c, KeysOf(byzantine, h + [SelfVote(r, cmd)]), r, cmd).0; r'.vHeight == VotedUpTo(c, r'.journal)
  {
    var b := NextBlock(r, cmd);
    assert r.head in r.blocks.Keys;
    InsertTracks(c, r, b, Extended(r, b));
    ExtendedSound(r, b);
    CountRecords(c, KeysOf(byzantine, h + [SelfVote(r, cmd)]), Extended(r, b), Vote(b.height, b.id, r.id));
  }

  lemma ExtendedSound(r: Replica, b: Block)
    requires Sound(r) && Content(b) == Some(b.id) && b.parent.value in r.blocks
    ensures Sound(Extended(r, b))
  {
  }

  lemma DeliverRecords(c: Config, k: Keys, r: Replica, b: Block)
    requires c.members != {} && Sound(r) && Tracks(c, r) && r.vHeight == VotedUpTo(c, r.journal)
    requires Content(b) == Some(b.id) && b.parent.value in r.blocks && b.id !in r.blocks && b.justify.node in r.blocks
    ensures var r' := CastVote(OnNewQC(c, k, Insert(r, b), b.justify), b, true).0; r'.vHeight == VotedUpTo(c, r'.journal)
  {
    DeliverTracks(c, k, r, b, true);
    TakenShape(c, k, Insert(r, b), b.justify);
  }

  /** A step replaces one replica, by what its handler leaves or by what a restart finds. */
  lemma StepShape(c: Config, byzantine: set<Id>, s: System, a: Action) returns (x: Replica, j: seq<Effect>)
    requires c.members != {} && AllSound(s) && Enabled(c, s, a)
    ensures Actor(c, a) in s.replicas && Step(c, byzantine, s, a).replicas == s.replicas[Actor(c, a) := x]
    ensures if a.Crash? then x == Recover(c, Actor(c, a), j) else x == Acted(c, byzantine, s, a)
  {
    x, j := Step(c, byzantine, s, a).replicas[Actor(c, a)], [];
    if a.Crash? {
      var r' := Acted(c, byzantine, s, a.during);
      j := r'.journal[..Kept(a.cut, s.replicas[Actor(c, a)].journal, r'.journal)];
    }
  }

  lemma StepRecords(c: Config, byzantine: set<Id>, s: System, a: Action)
    requires Inv(c, byzantine, s) && AllSound(s) && Enabled(c, s, a) && Durable(a) && Recorded(c, s)
    ensures Recorded(c, Step(c, byzantine, s, a))
  {
    var x, j := StepShape(c, byzantine, s, a);
    if !a.Crash? { ActedRecords(c, byzantine, s, a); }
  }
}
