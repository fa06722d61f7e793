/** A crash in the middle of a handler, as the executed commands see it. */
module HsSkips {
  import opened Options
  import opened HsTypes
  import opened HsSpec
  import opened HsRecovery
  import opened HsDurable
  import opened HsHistory
  import opened HsSystem
  import opened HsInvariant
  import opened HsSafety
  import opened HsSteps
  import opened HsCrash
  import opened HsTheorems
  import opened HsExact

  /** The record of a certificate is among the effects from `from` up to `n`. */
  predicate CertKept(j: seq<Effect>, from: nat, n: nat) {
    exists q :: from <= q < n && q < |j| && j[q].Write? && j[q].rec.QCRecord?
  }

  /** A command is among the effects from `n` on. */
  predicate RunLost(j: seq<Effect>, n: nat) {
    exists m :: n <= m < |j| && j[m].Run?
  }

  /** What a crash with the first `n` effects on record leaves: with the record of the certificate the committed block of
      the whole handler, without it the old one and no command run. */
  predicate CutOk(r: Replica, full: Replica, n: nat, x: Replica) {
    && r.journal <= full.journal && |r.journal| <= n <= |full.journal| && x.journal == full.journal[..n]
    && if CertKept(full.journal, |r.journal|, n) then x.bExec == full.bExec
       else x.bExec == r.bExec && forall i :: |r.journal| <= i < n ==> !full.journal[i].Run?
  }

  lemma CutLift(r: Replica, r1: Replica, full: Replica, n: nat, x: Replica, b: Block)
    requires r1.journal == r.journal + [Write(BlockRecord(b))] && r1.bExec == r.bExec && CutOk(r1, full, n, x)
    ensures CutOk(r, full, n, x)
  {
    assert full.journal[|r.journal|] == r1.journal[|r.journal|] == Write(BlockRecord(b));
    assert forall i :: 0 <= i < |r.journal| ==> r1.journal[i] == r.journal[i];
    if CertKept(full.journal, |r.journal|, n) {
      var q :| |r.journal| <= q < n && full.journal[q].Write? && full.journal[q].rec.QCRecord?;
      assert q >= |r1.journal|;
    }
  }

  /** Nothing of the handler is on record. */
  lemma CutNothing(c: Config, r: Replica, full: Replica, v: nat)
    requires Holds(c, r.journal, SummaryOf(r, v)) && r.journal <= full.journal
    ensures CutOk(r, full, |r.journal|, Recover(c, r.id, full.journal[..|r.journal|]))
  {
    CutPrefix(r.journal, full.journal, full.journal, |r.journal|);
    RecoverFinds(c, r.id, r.journal, SummaryOf(r, v));
  }

  // ---- a vote is counted ----

  /** A certificate that is taken in is recorded first. */
  lemma TakenFirst(c: Config, k: Keys, r: Replica, qc: QC)
    requires c.members != {} && Sound(r)
    ensures var r' := OnNewQC(c, k, r, qc);
            r' == r || (r.journal < r'.journal && r'.journal[|r.journal|] == Write(QCRecord(qc)))
  {
    CertificateJournal(c, k, r, qc);
  }

  lemma CountCutOk(c: Config, k: Keys, r: Replica, vote: Vote, v: nat, n: nat)
    requires c.members != {} && Sound(r) && Holds(c, r.journal, SummaryOf(r, v))
    requires |r.journal| <= n <= |VoteForBlock(c, k, r, vote).journal|
    ensures var full := VoteForBlock(c, k, r, vote); CutOk(r, full, n, Recover(c, r.id, full.journal[..n]))
  {
    var full := VoteForBlock(c, k, r, vote);
    CountSilent(c, k, r, vote);
    if n == |r.journal| {
      CutNothing(c, r, full, v);
    } else {
      VoteCases(c, k, r, vote);
      TakenFirst(c, k, Counted(r, vote), QC(vote.node, vote.height, AllVoters(r, vote)));
      var y := CountCut(c, k, r, vote, v, n);
      RecoverFinds(c, r.id, full.journal[..n], SummaryOf(y, v));
      assert full.journal[|r.journal|].Write? && full.journal[|r.journal|].rec.QCRecord?;
    }
  }

  // ---- the leader proposes ----

  lemma ProposeCutOk(c: Config, k: Keys, r: Replica, cmd: string, n: nat)
    requires c.members != {} && Sound(r) && MayPropose(c, r) && Tracks(c, r)
    requires |r.journal| <= n <= |Propose(c, k, r, cmd).0.journal|
    ensures var full := Propose(c, k, r, cmd).0; CutOk(r, full, n, Recover(c, r.id, full.journal[..n]))
  {
    var b, full := NextBlock(r, cmd), Propose(c, k, r, cmd).0;
    var r1, vote := Extended(r, b), Vote(b.height, b.id, r.id);
    assert b.id !in r.blocks.Keys;
    ExtendedSound(r, b);
    InsertTracks(c, r, b, r1);
    CountSilent(c, k, r1, vote);
    PrefixChain(r.journal, r1.journal, full.journal);
    if n == |r.journal| {
      CutNothing(c, r, full, VotedUpTo(c, r.journal));
    } else {
      CountCutOk(c, k, r1, vote, VotedUpTo(c, r1.journal), n);
      CutLift(r, r1, full, n, Recover(c, r.id, full.journal[..n]), b);
    }
  }

  // ---- a proposal is delivered ----

  /** After the block was inserted, before or after the vote. */
  lemma AcceptCutOk(c: Config, k: Keys, r1: Replica, b: Block, durable: bool, n: nat, x: Replica)
    requires c.members != {} && Sound(r1)
    requires var r2 := OnNewQC(c, k, r1, b.justify); var full := CastVote(r2, b, durable).0;
             |r1.journal| < n <= |full.journal| && x.journal == full.journal[..n] && x.bExec == r2.bExec
    ensures CutOk(r1, CastVote(OnNewQC(c, k, r1, b.justify), b, durable).0, n, x)
  {
    var r2 := OnNewQC(c, k, r1, b.justify);
    var full := CastVote(r2, b, durable).0;
    TakenFirst(c, k, r1, b.justify);
    CastShape(r2, b, durable);
    if r2 == r1 {
      assert forall i :: |r1.journal| <= i < |full.journal| ==>
          full.journal[i] == [Write(VotedRecord(b.height)), Send(Vote(b.height, b.id, r1.id))][i - |r1.journal|];
    } else {
      assert full.journal[|r1.journal|] == r2.journal[|r1.journal|];
      assert full.journal[|r1.journal|].Write? && full.journal[|r1.journal|].rec.QCRecord?;
    }
  }

  lemma DeliverCutOk(c: Config, k: Keys, r: Replica, b: Block, durable: bool, n: nat)
    requires c.members != {} && Sound(r) && Tracks(c, r)
    requires Content(b) == Some(b.id) && b.parent.value in r.blocks && b.id !in r.blocks && b.justify.node in r.blocks
    requires |r.journal| <= n <= |CastVote(OnNewQC(c, k, Insert(r, b), b.justify), b, durable).0.journal|
    ensures var full := CastVote(OnNewQC(c, k, Insert(r, b), b.justify), b, durable).0;
            CutOk(r, full, n, Recover(c, r.id, full.journal[..n]))
  {
    var r1, v := Insert(r, b), VotedUpTo(c, r.journal);
    var full := CastVote(OnNewQC(c, k, r1, b.justify), b, durable).0;
    var x := Recover(c, r.id, full.journal[..n]);
    DeliverOrder(c, k, r, b, durable);
    if n == |r.journal| {
      CutNothing(c, r, full, v);
    } else {
      TakenShape(c, k, r1, b.justify);
      CastShape(OnNewQC(c, k, r1, b.justify), b, durable);
      InsertTracks(c, r, b, r1);
      if n == |r1.journal| {
        CutNothing(c, r1, full, v);
      } else {
        var y, v' := DeliverCut(c, k, r, b, durable, v, n);
        RecoverFinds(c, r.id, full.journal[..n], SummaryOf(y, v'));
        AcceptCutOk(c, k, r1, b, durable, n, x);
      }
      CutLift(r, r1, full, n, x, b);
    }
  }

  /** Any handler. */
  lemma BrokenCutOk(c: Config, byzantine: set<Id>, s: System, a: Action, cut: nat)
    requires c.members != {} && AllSound(s) && Enabled(c, s, a) && !a.Crash?
    requires var r := s.replicas[Actor(c, a)]; r.id == Actor(c, a) && Tracks(c, r)
    ensures var r, full := s.replicas[Actor(c, a)], Acted(c, byzantine, s, a);
            var n := Kept(cut, r.journal, full.journal);
            CutOk(r, full, n, Recover(c, r.id, full.journal[..n]))
  {
    var r, full := s.replicas[Actor(c, a)], Acted(c, byzantine, s, a);
    var n := Kept(cut, r.journal, full.journal);
    match a
    case Collect(v) =>
      CountSilent(c, KeysOf(byzantine, s.history), r, v);
      KeptBetween(cut, r.journal, full.journal);
      CountCutOk(c, KeysOf(byzantine, s.history), r, v, VotedUpTo(c, r.journal), n);
    case ProposeNext(cmd) =>
      var k := KeysOf(byzantine, s.history + [SelfVote(r, cmd)]);
      ProposeOrder(c, k, r, cmd);
      KeptBetween(cut, r.journal, full.journal);
      ProposeCutOk(c, k, r, cmd, n);
    case Deliver(_, p, signed, durable) =>
      var k := KeysOf(byzantine, s.history);
      if Acceptable(c, k, r, p, signed) {
        ActedDeliver(c, byzantine, s, a);
        DeliverOrder(c, k, r, p.block, durable);
        KeptBetween(cut, r.journal, full.journal);
        DeliverCutOk(c, k, r, p.block, durable, n);
      } else {
        RefusedShape(c, byzantine, s, a);
        CutNothing(c, r, full, VotedUpTo(c, r.journal));
      }
  }

  lemma ProposeOrder(c: Config, k: Keys, r: Replica, cmd: string)
    requires c.members != {} && Sound(r) && MayPropose(c, r)
    ensures r.journal <= Propose(c, k, r, cmd).0.journal
  {
    var b := NextBlock(r, cmd);
    ExtendedSound(r, b);
    CountSilent(c, k, Extended(r, b), Vote(b.height, b.id, r.id));
    PrefixChain(r.journal, Extended(r, b).journal, Propose(c, k, r, cmd).0.journal);
  }

  // ---- what has been run against what is due ----

  /** Everything due has been run, and nothing else. */
  predicate Even(x: Replica) {
    RunsOf(x.journal) == Due(x.bExec)
  }

  predicate Behind(x: Replica) {
    |RunsOf(x.journal)| < |Due(x.bExec)|
  }

  lemma {:induction false} Cancel<T>(a: seq<T>, b: seq<T>, d: seq<T>)
    ensures a + d == b + d <==> a == b
  {
    if a + d == b + d {
      assert a == (a + d)[..|a|] && b == (b + d)[..|b|];
    }
  }

  /** A handler that completes changes nothing about it. */
  lemma {:induction false} CompleteEven(r: Replica, r': Replica)
    requires RunsDue(r, r') && Extends(r'.bExec, r.bExec)
    ensures (Even(r') <==> Even(r)) && (Behind(r) ==> Behind(r'))
  {
    DueSplits(r'.bExec, r.bExec);
    Cancel(RunsOf(r.journal), Due(r.bExec), DueSince(r'.bExec, r.bExec));
  }

  lemma {:induction false} LostRuns(j: seq<Effect>, n: nat)
    requires n <= |j|
    ensures RunsOf(j) == RunsOf(j[..n]) + RunsOf(j[n..]) && (RunLost(j, n) <==> RunsOf(j[n..]) != [])
  {
    var kept, lost := j[..n], j[n..];
    assert j == kept + lost;
    RunsConcat(kept, lost);
    NoRuns(lost);
    LostIff(j, n);
  }

  lemma {:induction false} LostIff(j: seq<Effect>, n: nat)
    requires n <= |j|
    ensures RunLost(j, n) <==> !Runless(j[n..])
  {
    var tail := j[n..];
    assert forall m :: 0 <= m < |tail| ==> tail[m] == j[n + m];
    if RunLost(j, n) {
      var m :| n <= m < |j| && j[m].Run?;
      assert tail[m - n] == j[m];
    }
  }

  lemma {:induction false} CutRuns(r: Replica, full: Replica, n: nat, x: Replica)
    requires CutOk(r, full, n, x) && !CertKept(full.journal, |r.journal|, n)
    ensures RunsOf(x.journal) == RunsOf(r.journal) && x.bExec == r.bExec
  {
    IdleTail(r.journal, full.journal, n);
  }

  lemma {:induction false} IdleTail(j: seq<Effect>, j': seq<Effect>, n: nat)
    requires j <= j' && |j| <= n <= |j'| && forall i :: |j| <= i < n ==> !j'[i].Run?
    ensures RunsOf(j'[..n]) == RunsOf(j)
  {
    var tail := j'[|j|..n];
    assert j'[..n] == j + tail;
    forall e | e in tail ensures !e.Run? {
      var i :| 0 <= i < |tail| && tail[i] == e;
      assert e == j'[|j| + i];
    }
    RunsSame(j, tail);
  }

  /** A crash leaves the replica behind exactly if it was so before, or if the record of a certificate was kept and a
      command that it commits was not run. */
  lemma {:induction false} CutEven(r: Replica, full: Replica, n: nat, x: Replica)
    requires CutOk(r, full, n, x) && RunsDue(r, full) && Extends(x.bExec, r.bExec) && (Even(r) || Behind(r))
    ensures Even(x) || Behind(x)
    ensures Even(x) <==> Even(r) && !(CertKept(full.journal, |r.journal|, n) && RunLost(full.journal, n))
  {
    if !CertKept(full.journal, |r.journal|, n) {
      CutRuns(r, full, n, x);
    } else {
      LostRuns(full.journal, n);
      DueSplits(x.bExec, r.bExec);
      Cancel(RunsOf(r.journal), Due(r.bExec), DueSince(x.bExec, r.bExec));
      if !RunLost(full.journal, n) {
        assert RunsOf(x.journal) + [] == RunsOf(x.journal);
      } else {
        assert |RunsOf(x.journal)| < |RunsOf(r.journal)| + |DueSince(x.bExec, r.bExec)|;
      }
    }
  }

  // ---- runs ----

  /** A crash at `cut` falls between the record of a certificate and the last command this certificate commits. */
  ghost predicate SplitsCommit(c: Config, byzantine: set<Id>, s: System, during: Action, cut: nat)
    requires c.members != {} && AllSound(s) && Enabled(c, s, during) && !during.Crash?
  {
    var before, after := s.replicas[Actor(c, during)].journal, Acted(c, byzantine, s, during).journal;
    var n := Kept(cut, before, after);
    CertKept(after, |before|, n) && RunLost(after, n)
  }

  /** The action is such a crash of `r`. */
  ghost predicate Splits(c: Config, byzantine: set<Id>, s: System, a: Action, r: Id)
    requires c.members != {} && AllSound(s) && Enabled(c, s, a)
  {
    a.Crash? && Actor(c, a.during) == r && SplitsCommit(c, byzantine, s, a.during, a.cut)
  }

  ghost predicate SplitsAt(c: Config, byzantine: set<Id>, run: seq<Action>, i: nat, r: Id)
    requires Setting(c, byzantine) && i < |run|
  {
    var s := Exec(c, byzantine, run[..i]);
    s.Some? && AllSound(s.value) && Enabled(c, s.value, run[i]) && Splits(c, byzantine, s.value, run[i], r)
  }

  /** No crash of the run splits a commit of `r`. */
  ghost predicate Unsplit(c: Config, byzantine: set<Id>, run: seq<Action>, r: Id)
    requires Setting(c, byzantine)
  {
    forall i :: 0 <= i < |run| ==> !SplitsAt(c, byzantine, run, i, r)
  }

  lemma StepEven(c: Config, byzantine: set<Id>, s: System, a: Action, r: Id)
    requires Inv(c, byzantine, s) && AllSound(s) && Enabled(c, s, a) && r in s.replicas
    requires r in Step(c, byzantine, s, a).replicas
    requires var x, x' := s.replicas[r], Step(c, byzantine, s, a).replicas[r];
             (Even(x) || Behind(x)) && Extends(x'.bExec, x.bExec)
    ensures var x, x' := s.replicas[r], Step(c, byzantine, s, a).replicas[r];
            (Even(x') || Behind(x')) && (Even(x') <==> Even(x) && !Splits(c, byzantine, s, a, r))
  {
    if Actor(c, a) != r {
      OthersStay(c, byzantine, s, a, r);
    } else {
      assert NamedOk(c, byzantine, s, r) && Tracks(c, s.replicas[r]);
      ActorEven(c, byzantine, s, a);
    }
  }

  lemma OthersStay(c: Config, byzantine: set<Id>, s: System, a: Action, r: Id)
    requires c.members != {} && AllSound(s) && Enabled(c, s, a) && r in s.replicas && Actor(c, a) != r
    ensures r in Step(c, byzantine, s, a).replicas && Step(c, byzantine, s, a).replicas[r] == s.replicas[r]
  {
  }

  lemma ActorEven(c: Config, byzantine: set<Id>, s: System, a: Action)
    requires c.members != {} && AllSound(s) && Enabled(c, s, a) && Actor(c, a) in s.replicas
    requires var r := s.replicas[Actor(c, a)]; r.id == Actor(c, a) && Tracks(c, r) && Honest(r.blocks)
    requires var x, x' := s.replicas[Actor(c, a)], Step(c, byzantine, s, a).replicas[Actor(c, a)];
             (Even(x) || Behind(x)) && Extends(x'.bExec, x.bExec)
    ensures var x, x' := s.replicas[Actor(c, a)], Step(c, byzantine, s, a).replicas[Actor(c, a)];
            (Even(x') || Behind(x')) && (Even(x') <==> Even(x) && !Splits(c, byzantine, s, a, Actor(c, a)))
  {
    var x, x' := s.replicas[Actor(c, a)], Step(c, byzantine, s, a).replicas[Actor(c, a)];
    if !a.Crash? {
      ActedRunsDue(c, byzantine, s, a);
      CompleteEven(x, x');
    } else {
      var full := Acted(c, byzantine, s, a.during);
      BrokenCutOk(c, byzantine, s, a.during, a.cut);
      ActedRunsDue(c, byzantine, s, a.during);
      CutEven(x, full, Kept(a.cut, x.journal, full.journal), x');
    }
  }

  lemma {:induction false} RunEven(c: Config, byzantine: set<Id>, run: seq<Action>, r: Id)
    requires Setting(c, byzantine) && byzantine <= c.members && Exec(c, byzantine, run).Some?
    requires r in c.members - byzantine && AllTight(Exec(c, byzantine, run).value.commits)
    ensures EvenIff(c, byzantine, run, r)
    decreases |run|
  {
    if run == [] {
      StartEven(c, byzantine, r);
    } else {
      var before, a := CutLast(run);
      TightBefore(c, byzantine, before, a);
      RunEven(c, byzantine, before, r);
      MoreEven(c, byzantine, before, a, r);
    }
  }

  lemma CutLast(run: seq<Action>) returns (before: seq<Action>, a: Action)
    requires run != []
    ensures run == before + [a]
  {
    before, a := run[..|run| - 1], run[|run| - 1];
  }

  /** In the outcome of a run, `r` is even with its branch if and only if none of its crashes split a commit. */
  ghost predicate EvenIff(c: Config, byzantine: set<Id>, run: seq<Action>, r: Id)
    requires Setting(c, byzantine)
  {
    && Exec(c, byzantine, run).Some? && r in Exec(c, byzantine, run).value.replicas
    && var x := Exec(c, byzantine, run).value.replicas[r];
       (Even(x) || Behind(x)) && (Even(x) <==> Unsplit(c, byzantine, run, r))
  }

  lemma StartEven(c: Config, byzantine: set<Id>, r: Id)
    requires Setting(c, byzantine) && r in c.members - byzantine
    ensures EvenIff(c, byzantine, [], r)
  {
  }

  lemma MoreEven(c: Config, byzantine: set<Id>, run: seq<Action>, a: Action, r: Id)
    requires Setting(c, byzantine) && byzantine <= c.members && Exec(c, byzantine, run + [a]).Some?
    requires r in c.members - byzantine && AllTight(Exec(c, byzantine, run + [a]).value.commits)
    requires EvenIff(c, byzantine, run, r)
    ensures EvenIff(c, byzantine, run + [a], r)
  {
    StillThere(c, byzantine, run, a, r);
    NextEven(c, byzantine, run, a, r);
    UnsplitMore(c, byzantine, run, a, r);
  }

  lemma StillThere(c: Config, byzantine: set<Id>, run: seq<Action>, a: Action, r: Id)
    requires Setting(c, byzantine) && byzantine <= c.members && Exec(c, byzantine, run + [a]).Some?
    requires Exec(c, byzantine, run).Some? && r in Exec(c, byzantine, run).value.replicas
    ensures r in Exec(c, byzantine, run + [a]).value.replicas
  {
    RunProgress(c, byzantine, run, [a]);
  }

  lemma TightBefore(c: Config, byzantine: set<Id>, run: seq<Action>, a: Action)
    requires Setting(c, byzantine) && byzantine <= c.members && Exec(c, byzantine, run + [a]).Some?
    requires AllTight(Exec(c, byzantine, run + [a]).value.commits)
    ensures Exec(c, byzantine, run).Some? && AllTight(Exec(c, byzantine, run).value.commits)
  {
    RunProgress(c, byzantine, run, [a]);
    var s, s' := Exec(c, byzantine, run).value, Exec(c, byzantine, run + [a]).value;
    assert forall t :: t in s.commits ==> t in s'.commits;
  }

  lemma NextEven(c: Config, byzantine: set<Id>, run: seq<Action>, a: Action, r: Id)
    requires Setting(c, byzantine) && byzantine <= c.members && Exec(c, byzantine, run + [a]).Some?
    requires r in Exec(c, byzantine, run + [a]).value.replicas && AllTight(Exec(c, byzantine, run + [a]).value.commits)
    requires Exec(c, byzantine, run).Some? && r in Exec(c, byzantine, run).value.replicas
    requires var x := Exec(c, byzantine, run).value.replicas[r]; Even(x) || Behind(x)
    ensures var x, x' := Exec(c, byzantine, run).value.replicas[r], Exec(c, byzantine, run + [a]).value.replicas[r];
            (Even(x') || Behind(x')) && (Even(x') <==> Even(x) && !SplitsAt(c, byzantine, run + [a], |run|, r))
  {
    var s := Exec(c, byzantine, run).value;
    RunKeeps(c, byzantine, run);
    CommitWalksMeet(c, byzantine, run, a, r);
    ExecNext(c, byzantine, run, a);
    assert (run + [a])[..|run|] == run;
    StepEven(c, byzantine, s, a, r);
  }

  lemma ExecNext(c: Config, byzantine: set<Id>, run: seq<Action>, a: Action)
    requires Setting(c, byzantine) && Exec(c, byzantine, run).Some? && Exec(c, byzantine, run + [a]).Some?
    ensures var s := Exec(c, byzantine, run).value;
            AllSound(s) && Enabled(c, s, a) && Exec(c, byzantine, run + [a]).value == Step(c, byzantine, s, a)
  {
    assert (run + [a])[..|run|] == run;
  }

  lemma UnsplitMore(c: Config, byzantine: set<Id>, run: seq<Action>, a: Action, r: Id)
    requires Setting(c, byzantine)
    ensures Unsplit(c, byzantine, run + [a], r) <==>
            Unsplit(c, byzantine, run, r) && !SplitsAt(c, byzantine, run + [a], |run|, r)
  {
    assert forall i :: 0 <= i <= |run| ==> (run + [a])[..i] == run[..i];
    forall i | 0 <= i < |run| ensures SplitsAt(c, byzantine, run + [a], i, r) <==> SplitsAt(c, byzantine, run, i, r) {
      assert (run + [a])[..i] == run[..i] && (run + [a])[i] == run[i];
    }
  }

  /** Exactly once, exactly when: over every run, a correct replica has run the commands of the branch it has committed,
      each once and in order, if and only if none of its crashes fell between the record of a certificate and the last
      command that this certificate commits. */
  lemma ExactlyOnceIff(c: Config, byzantine: set<Id>, run: seq<Action>, r: Id)
    requires Setting(c, byzantine) && byzantine <= c.members && Exec(c, byzantine, run).Some?
    requires r in c.members - byzantine && AllTight(Exec(c, byzantine, run).value.commits)
    ensures r in Exec(c, byzantine, run).value.replicas
    ensures var x := Exec(c, byzantine, run).value.replicas[r];
            RunsOf(x.journal) == Due(x.bExec) <==> Unsplit(c, byzantine, run, r)
  {
    RunEven(c, byzantine, run, r);
  }

  /** In particular without crashes. */
  lemma CommandsRunExactly(c: Config, byzantine: set<Id>, run: seq<Action>, r: Id)
    requires Setting(c, byzantine) && byzantine <= c.members && Exec(c, byzantine, run).Some?
    requires r in c.members - byzantine && AllTight(Exec(c, byzantine, run).value.commits) && Steady(c, run, r)
    ensures r in Exec(c, byzantine, run).value.replicas
    ensures var x := Exec(c, byzantine, run).value.replicas[r]; RunsOf(x.journal) == Due(x.bExec)
  {
    RunEven(c, byzantine, run, r);
    SteadyUnsplit(c, byzantine, run, r);
  }

  lemma SteadyUnsplit(c: Config, byzantine: set<Id>, run: seq<Action>, r: Id)
    requires Setting(c, byzantine) && Steady(c, run, r)
    ensures Unsplit(c, byzantine, run, r)
  {
    forall i | 0 <= i < |run| ensures !SplitsAt(c, byzantine, run, i, r) {
      assert !(run[i].Crash? && Actor(c, run[i]) == r);
    }
  }

  lemma {:induction false} DuePrefix(b: BlockId, a: BlockId)
    requires Extends(b, a)
    ensures Due(a) <= Due(b)
  {
    DueSplits(b, a);
  }

  /** Agreement on execution: what two correct replicas have really run is the same as far as it goes, if neither has lost
      commands to a crash. */
  lemma ExecutionAgrees(c: Config, byzantine: set<Id>, run: seq<Action>, r1: Id, r2: Id)
    requires Setting(c, byzantine) && byzantine <= c.members && Exec(c, byzantine, run).Some?
    requires r1 in c.members - byzantine && r2 in c.members - byzantine
    requires AllTight(Exec(c, byzantine, run).value.commits)
    requires Unsplit(c, byzantine, run, r1) && Unsplit(c, byzantine, run, r2)
    ensures var s := Exec(c, byzantine, run).value; r1 in s.replicas && r2 in s.replicas
    ensures var s := Exec(c, byzantine, run).value;
            var a, b := RunsOf(s.replicas[r1].journal), RunsOf(s.replicas[r2].journal); a <= b || b <= a
  {
    RunEven(c, byzantine, run, r1);
    RunEven(c, byzantine, run, r2);
    RunKeeps(c, byzantine, run);
    var s := Exec(c, byzantine, run).value;
    HeadsAgree(c, byzantine, s, s.replicas[r1].bExec, s.replicas[r2].bExec);
  }

  lemma HeadsAgree(c: Config, byzantine: set<Id>, s: System, a: BlockId, b: BlockId)
    requires Inv(c, byzantine, s) && AllTight(s.commits) && Committed(s, a) && Committed(s, b)
    ensures Due(a) <= Due(b) || Due(b) <= Due(a)
  {
    CommittedCertified(c, byzantine, s, a);
    CommittedCertified(c, byzantine, s, b);
    if Height(a) <= Height(b) {
      CommittedBelow(c, byzantine, s, a, b);
      DuePrefix(b, a);
    } else {
      CommittedBelow(c, byzantine, s, b, a);
      DuePrefix(a, b);
    }
  }
}
