/** A correct leader is never refused: wherever it and the others have crashed, whatever Byzantine members have signed, its
    next proposal passes every check of every follower that knows the parent block, and gets that follower's vote. */
module HsWelcome {
  import opened Options
  import opened HsTypes
  import opened HsSpec
  import opened HsRecovery
  import opened HsDurable
  import opened HsHistory
  import opened HsSystem
  import opened HsInvariant
  import opened HsSafety
  import opened HsSteps
  import opened HsCrash
  import opened HsTheorems
  import opened HsSkips
  import opened HsCertify

  /** The leader holds a certificate that verifies, and none of its proposals carries a higher one. */
  predicate Leads(c: Config, k: Keys, r: Replica, proposals: set<Block>)
    requires c.members != {}
  {
    QCValid(c, k, map[], r.qcHigh) && forall p :: p in proposals ==> p.justify.height <= r.qcHigh.height
  }

  /** The follower knows no block, has seen no certificate and has cast no vote that is beyond the leader. */
  ghost predicate Trails(r: Replica, f: Replica) {
    f.blocks.Keys <= r.blocks.Keys && f.qcHigh.height <= r.qcHigh.height && f.vHeight <= MaxHeight(r.blocks.Keys)
  }

  ghost predicate Served(c: Config, byzantine: set<Id>, s: System)
    requires c.members != {}
  {
    && c.leader in s.replicas && Leads(c, KeysOf(byzantine, s.history), s.replicas[c.leader], s.proposals)
    && forall f :: f in s.replicas && f != c.leader ==> Trails(s.replicas[c.leader], s.replicas[f])
  }

  // ---- the leader moves ----

  /** The leader has lost nothing, and its certificate verifies. */
  predicate Risen(c: Config, k: Keys, r: Replica, r': Replica)
    requires c.members != {}
  {
    r.blocks.Keys <= r'.blocks.Keys && r.qcHigh.height <= r'.qcHigh.height && QCValid(c, k, map[], r'.qcHigh)
  }

  lemma MaxGrows(a: set<BlockId>, b: set<BlockId>)
    requires a <= b && a != {}
    ensures MaxHeight(a) <= MaxHeight(b)
  {
    var x :| x in a && Height(x) == MaxHeight(a);
    assert x in b;
  }

  lemma TrailsOn(r: Replica, r': Replica, f: Replica)
    requires Genesis in r.blocks && Trails(r, f) && r.blocks.Keys <= r'.blocks.Keys && r.qcHigh.height <= r'.qcHigh.height
    ensures Trails(r', f)
  {
    MaxGrows(r.blocks.Keys, r'.blocks.Keys);
  }

  lemma LeaderServes(c: Config, byzantine: set<Id>, s: System, s': System, b: Block)
    requires c.members != {} && Served(c, byzantine, s) && Sound(s.replicas[c.leader])
    requires c.leader in s'.replicas && s'.replicas == s.replicas[c.leader := s'.replicas[c.leader]]
    requires Risen(c, KeysOf(byzantine, s'.history), s.replicas[c.leader], s'.replicas[c.leader])
    requires s'.proposals <= s.proposals + {b} && b.justify == s.replicas[c.leader].qcHigh
    ensures Served(c, byzantine, s')
  {
    forall f | f in s'.replicas && f != c.leader ensures Trails(s'.replicas[c.leader], s'.replicas[f]) {
      TrailsOn(s.replicas[c.leader], s'.replicas[c.leader], s.replicas[f]);
    }
  }

  lemma ValidGrows(c: Config, byzantine: set<Id>, h: seq<Event>, h': seq<Event>, qc: QC)
    requires c.members != {} && h <= h' && QCValid(c, KeysOf(byzantine, h), map[], qc)
    ensures QCValid(c, KeysOf(byzantine, h'), map[], qc)
  {
    forall v | v in qc.voters && Verifies(KeysOf(byzantine, h), Vote(qc.height, qc.node, v))
      ensures Verifies(KeysOf(byzantine, h'), Vote(qc.height, qc.node, v))
    {
      KeysGrow(byzantine, h, h', Vote(qc.height, qc.node, v));
    }
  }

  lemma CountRises(c: Config, k: Keys, r: Replica, v: Vote)
    requires c.members != {} && Sound(r) && QCValid(c, k, map[], r.qcHigh)
    ensures Risen(c, k, r, VoteForBlock(c, k, r, v)) && VoteForBlock(c, k, r, v).blocks == r.blocks
  {
    VoteCases(c, k, r, v);
    if Sound(Counted(r, v)) { TakenCounts(c, k, Counted(r, v), QC(v.node, v.height, AllVoters(r, v))); }
  }

  /** A crash while a vote is counted. */
  lemma CountFalls(c: Config, k: Keys, r: Replica, v: Vote, n: nat)
    requires c.members != {} && Sound(r) && Tracks(c, r) && QCValid(c, k, map[], r.qcHigh)
    requires |r.journal| <= n <= |VoteForBlock(c, k, r, v).journal|
    ensures Risen(c, k, r, Recover(c, r.id, VoteForBlock(c, k, r, v).journal[..n]))
  {
    var top, r' := VotedUpTo(c, r.journal), VoteForBlock(c, k, r, v);
    var y := CountCut(c, k, r, v, top, n);
    CountSilent(c, k, r, v);
    SilentVotes(r.journal, r'.journal, n, top);
    Restart(c, r.id, r'.journal[..n], y, top);
    CountRises(c, k, r, v);
  }

  /** A restart with nothing lost. */
  lemma PlainRises(c: Config, k: Keys, r: Replica)
    requires c.members != {} && Tracks(c, r) && QCValid(c, k, map[], r.qcHigh)
    ensures Risen(c, k, r, Recover(c, r.id, r.journal))
  {
    Restart(c, r.id, r.journal, r, VotedUpTo(c, r.journal));
  }

  /** The next block is above everything the leader knows. */
  lemma NextIsNew(r: Replica, cmd: string)
    requires Sound(r)
    ensures var b := NextBlock(r, cmd);
            && Content(b) == Some(b.id) && b.parent == Some(r.head) && b.height > MaxHeight(r.blocks.Keys)
            && b.height > Height(r.head) && b.id !in r.blocks
  {
    assert r.head in r.blocks.Keys;
    if NextBlock(r, cmd).id in r.blocks.Keys { assert false; }
  }

  lemma ExtendedTracks(c: Config, r: Replica, cmd: string)
    requires Sound(r) && Tracks(c, r)
    ensures var b := NextBlock(r, cmd);
            && Content(b) == Some(b.id) && b.parent.value in r.blocks
            && Sound(Extended(r, b)) && Tracks(c, Extended(r, b)) && r.blocks.Keys <= Extended(r, b).blocks.Keys
  {
    NextIsNew(r, cmd);
    InsertTracks(c, r, NextBlock(r, cmd), Extended(r, NextBlock(r, cmd)));
  }

  lemma ProposeServes(c: Config, byzantine: set<Id>, s: System, a: Action)
    requires Inv(c, byzantine, s) && AllSound(s) && Served(c, byzantine, s) && a.ProposeNext? && Enabled(c, s, a)
    ensures Served(c, byzantine, Complete(c, byzantine, s, a))
  {
    assert NamedOk(c, byzantine, s, c.leader);
    var r := s.replicas[c.leader];
    var b, h' := NextBlock(r, a.cmd), s.history + [SelfVote(r, a.cmd)];
    ProposeShape(c, byzantine, s, a);
    ExtendedTracks(c, r, a.cmd);
    ValidGrows(c, byzantine, s.history, h', r.qcHigh);
    CountRises(c, KeysOf(byzantine, h'), Extended(r, b), Vote(b.height, b.id, r.id));
    LeaderServes(c, byzantine, s, Complete(c, byzantine, s, a), b);
  }

  lemma ProposeFalls(c: Config, byzantine: set<Id>, s: System, a: Action, cut: nat)
    requires Inv(c, byzantine, s) && AllSound(s) && Served(c, byzantine, s) && a.ProposeNext? && Enabled(c, s, a)
    ensures Served(c, byzantine, Broken(c, byzantine, s, a, cut))
  {
    assert NamedOk(c, byzantine, s, c.leader);
    var r := s.replicas[c.leader];
    var b, e := NextBlock(r, a.cmd), SelfVote(r, a.cmd);
    var r', n := BrokenPropose(c, byzantine, s, a, cut);
    var s' := Fallback(c, s, a, r', [e], n);
    if n == |r.journal| {
      ProposeUndone(c, s, a, r', [e]);
      PlainRises(c, KeysOf(byzantine, s.history), r);
    } else {
      ExtendedTracks(c, r, a.cmd);
      ValidGrows(c, byzantine, s.history, s.history + [e], r.qcHigh);
      CountFalls(c, KeysOf(byzantine, s.history + [e]), Extended(r, b), Vote(b.height, b.id, r.id), n);
      FallbackProposed(c, s, a, r', e, n);
    }
    LeaderServes(c, byzantine, s, s', b);
  }

  lemma CollectServes(c: Config, byzantine: set<Id>, s: System, a: Action)
    requires Inv(c, byzantine, s) && AllSound(s) && Served(c, byzantine, s) && a.Collect? && Enabled(c, s, a)
    ensures Served(c, byzantine, Complete(c, byzantine, s, a))
  {
    assert NamedOk(c, byzantine, s, c.leader);
    CollectShape(c, byzantine, s, a);
    CountRises(c, KeysOf(byzantine, s.history), s.replicas[c.leader], a.v);
    LeaderServes(c, byzantine, s, Complete(c, byzantine, s, a), NextBlock(s.replicas[c.leader], ""));
  }

  lemma CollectFalls(c: Config, byzantine: set<Id>, s: System, a: Action, cut: nat)
    requires Inv(c, byzantine, s) && AllSound(s) && Served(c, byzantine, s) && a.Collect? && Enabled(c, s, a)
    ensures Served(c, byzantine, Broken(c, byzantine, s, a, cut))
  {
    assert NamedOk(c, byzantine, s, c.leader);
    var r := s.replicas[c.leader];
    var r', n := BrokenCollect(c, byzantine, s, a, cut);
    CountFalls(c, KeysOf(byzantine, s.history), r, a.v, n);
    CollectMoved(c, s, a, r', n);
    LeaderServes(c, byzantine, s, Fallback(c, s, a, r', [], n), NextBlock(r, ""));
  }

  // ---- a follower moves ----

  lemma FollowerServed(c: Config, byzantine: set<Id>, s: System, s': System, f: Id)
    requires c.members != {} && Served(c, byzantine, s) && f in s'.replicas && f != c.leader
    requires s'.replicas == s.replicas[f := s'.replicas[f]] && s.history <= s'.history && s'.proposals == s.proposals
    requires Trails(s.replicas[c.leader], s'.replicas[f])
    ensures Served(c, byzantine, s')
  {
    ValidGrows(c, byzantine, s.history, s'.history, s.replicas[c.leader].qcHigh);
  }

  /** What a follower may have become by the block. */
  predicate Tookup(f: Replica, f': Replica, b: Block) {
    && f'.blocks.Keys <= f.blocks.Keys + {b.id} && (f'.qcHigh == f.qcHigh || f'.qcHigh == b.justify)
    && (f'.vHeight <= f.vHeight || f'.vHeight == b.height)
  }

  lemma TookupTrails(c: Config, k: Keys, r: Replica, proposals: set<Block>, f: Replica, f': Replica, b: Block)
    requires c.members != {} && Leads(c, k, r, proposals) && LeaderOk(r, proposals) && b in proposals && Height(b.id) == b.height
    requires Trails(r, f) && Tookup(f, f', b)
    ensures Trails(r, f')
  {
    assert b.id in r.blocks.Keys;
  }

  lemma AcceptTakes(c: Config, byzantine: set<Id>, h: seq<Event>, r: Replica, b: Block, durable: bool)
    requires c.members != {} && Sound(r) && Content(b) == Some(b.id) && b.parent.value in r.blocks
    ensures Tookup(r, Insert(r, b), b) && Tookup(r, Accepted(c, byzantine, h, r, b), b)
    ensures Tookup(r, Follower(c, byzantine, h, r, b, durable).0, b) && Follower(c, byzantine, h, r, b, durable).0.id == r.id
  {
    TakenCounts(c, KeysOf(byzantine, h), Insert(r, b), b.justify);
  }

  lemma DeliverServes(c: Config, byzantine: set<Id>, s: System, a: Action)
    requires Inv(c, byzantine, s) && AllSound(s) && Served(c, byzantine, s) && a.Deliver? && Enabled(c, s, a)
    requires a.to != c.leader && Acceptable(c, KeysOf(byzantine, s.history), s.replicas[a.to], a.p, a.signed)
    ensures Served(c, byzantine, Complete(c, byzantine, s, a))
  {
    assert NamedOk(c, byzantine, s, a.to) && NamedOk(c, byzantine, s, c.leader);
    var r, b := s.replicas[a.to], a.p.block;
    AcceptedShape(c, byzantine, s, a);
    AcceptTakes(c, byzantine, s.history, r, b, a.durable);
    TookupTrails(c, KeysOf(byzantine, s.history), s.replicas[c.leader], s.proposals, r,
                 Follower(c, byzantine, s.history, r, b, a.durable).0, b);
    FollowerServed(c, byzantine, s, Complete(c, byzantine, s, a), a.to);
  }

  lemma FallenTakes(c: Config, byzantine: set<Id>, h: seq<Event>, r: Replica, p: Proposal, signed: bool, durable: bool, n: nat)
    requires c.members != {} && Sound(r) && Tracks(c, r) && Acceptable(c, KeysOf(byzantine, h), r, p, signed)
    requires |r.journal| <= n <= |Follower(c, byzantine, h, r, p.block, durable).0.journal|
    ensures Tookup(r, Fallen(c, byzantine, h, r, p.block, durable, n).0, p.block)
  {
    var y, v := FallenFinds(c, byzantine, h, r, p, signed, durable, n);
    AcceptTakes(c, byzantine, h, r, p.block, durable);
  }

  lemma DeliverFalls(c: Config, byzantine: set<Id>, s: System, a: Action, cut: nat)
    requires Inv(c, byzantine, s) && AllSound(s) && Served(c, byzantine, s) && a.Deliver? && Enabled(c, s, a)
    requires a.to != c.leader && Acceptable(c, KeysOf(byzantine, s.history), s.replicas[a.to], a.p, a.signed)
    ensures Served(c, byzantine, Broken(c, byzantine, s, a, cut))
  {
    assert NamedOk(c, byzantine, s, a.to) && NamedOk(c, byzantine, s, c.leader);
    var r, b := s.replicas[a.to], a.p.block;
    var full, news, n := BrokenDeliver(c, byzantine, s, a, cut);
    FallbackMoved(c, s, a, full, news, n);
    FallenTakes(c, byzantine, s.history, r, a.p, a.signed, a.durable, n);
    TookupTrails(c, KeysOf(byzantine, s.history), s.replicas[c.leader], s.proposals, r,
                 Fallen(c, byzantine, s.history, r, b, a.durable, n).0, b);
    FollowerServed(c, byzantine, s, Fallback(c, s, a, full, news, n), a.to);
  }

  /** A refused proposal, or a crash in the middle of refusing it. */
  lemma RefusedServes(c: Config, byzantine: set<Id>, s: System, a: Action, cut: nat)
    requires Inv(c, byzantine, s) && AllSound(s) && Served(c, byzantine, s) && a.Deliver? && Enabled(c, s, a)
    requires !Acceptable(c, KeysOf(byzantine, s.history), s.replicas[a.to], a.p, a.signed)
    ensures Served(c, byzantine, Complete(c, byzantine, s, a)) && Served(c, byzantine, Broken(c, byzantine, s, a, cut))
  {
    assert NamedOk(c, byzantine, s, a.to);
    RefusedShape(c, byzantine, s, a);
    RefusedBroken(c, byzantine, s, a, cut);
    var s', r := Broken(c, byzantine, s, a, cut), s.replicas[a.to];
    Restart(c, a.to, r.journal, r, VotedUpTo(c, r.journal));
    if a.to == c.leader {
      PlainRises(c, KeysOf(byzantine, s.history), r);
      LeaderServes(c, byzantine, s, s', NextBlock(r, ""));
    } else {
      FollowerServed(c, byzantine, s, s', a.to);
    }
  }

  // ---- every run ----

  lemma StepServes(c: Config, byzantine: set<Id>, s: System, a: Action)
    requires Inv(c, byzantine, s) && AllSound(s) && Served(c, byzantine, s) && Enabled(c, s, a)
    ensures Served(c, byzantine, Step(c, byzantine, s, a))
  {
    var d, cut := if a.Crash? then a.during else a, if a.Crash? then a.cut else 0;
    match d
    case ProposeNext(_) =>
      ProposeServes(c, byzantine, s, d);
      ProposeFalls(c, byzantine, s, d, cut);
    case Collect(_) =>
      CollectServes(c, byzantine, s, d);
      CollectFalls(c, byzantine, s, d, cut);
    case Deliver(to, p, signed, durable) =>
      if Acceptable(c, KeysOf(byzantine, s.history), s.replicas[to], p, signed) {
        assert to != c.leader by {
          if to == c.leader { LeaderIgnores(c, byzantine, s, p, signed, KeysOf(byzantine, s.history)); }
        }
        DeliverServes(c, byzantine, s, d);
        DeliverFalls(c, byzantine, s, d, cut);
      } else {
        RefusedServes(c, byzantine, s, d, cut);
      }
  }

  lemma {:induction false} RunServes(c: Config, byzantine: set<Id>, run: seq<Action>)
    requires Setting(c, byzantine) && byzantine <= c.members && Exec(c, byzantine, run).Some?
    requires c.leader in c.members - byzantine
    ensures Served(c, byzantine, Exec(c, byzantine, run).value)
    decreases |run|
  {
    if run != [] {
      var before, a := CutLast(run);
      assert run[..|run| - 1] == before;
      RunServes(c, byzantine, before);
      RunKeeps(c, byzantine, before);
      StepServes(c, byzantine, Exec(c, byzantine, before).value, a);
    }
  }

  // ---- the next proposal ----

  lemma {:induction false} WalkEnds(r: Replica, b: BlockId)
    requires Sound(r) && b in r.blocks
    ensures ExtendsFrom(r.blocks, b, Genesis)
    decreases b
  {
    if !b.Genesis? { WalkEnds(r, b.parent); }
  }

  lemma NextIsWelcome(c: Config, byzantine: set<Id>, h: seq<Event>, k: Keys, r: Replica, f: Replica, cmd: string)
    requires c.members != {} && Sound(r) && Sound(f) && LockOk(c, byzantine, h, r) && LockOk(c, byzantine, h, f)
    requires QCValid(c, k, map[], r.qcHigh) && Trails(r, f) && MayPropose(c, r) && r.head in f.blocks
    ensures Acceptable(c, k, f, Proposal(NextBlock(r, cmd), c.leader), true) && NextBlock(r, cmd).height > f.vHeight
  {
    var b := NextBlock(r, cmd);
    NextIsNew(r, cmd);
    assert f.bExec in r.blocks.Keys && f.bLock in f.blocks;
    if f.bLock.Genesis? { WalkEnds(f, r.head); }
  }

  lemma Answers(c: Config, byzantine: set<Id>, s: System, a: Action)
    requires c.members != {} && AllSound(s) && a.Deliver? && Enabled(c, s, a) && a.durable && s.replicas[a.to].id == a.to
    requires Acceptable(c, KeysOf(byzantine, s.history), s.replicas[a.to], a.p, a.signed)
    requires a.p.block.height > s.replicas[a.to].vHeight
    ensures HasVoted(Complete(c, byzantine, s, a).history, a.to, a.p.block.id)
  {
    var r, b := s.replicas[a.to], a.p.block;
    AcceptedShape(c, byzantine, s, a);
    AcceptTakes(c, byzantine, s.history, r, b, true);
    TakenCounts(c, KeysOf(byzantine, s.history), Insert(r, b), b.justify);
    var h' := Complete(c, byzantine, s, a).history;
    assert h'[|s.history|].voter == a.to && h'[|s.history|].block == b.id;
  }

  /** The proposal is out, and the follower has not moved. */
  ghost predicate Out(c: Config, byzantine: set<Id>, s: System, s1: System, cmd: string, f: Id) {
    && c.leader in s.replicas && c.leader in s1.replicas && f in s.replicas && f in s1.replicas
    && s1.replicas[f] == s.replicas[f] && s1.history == s.history + [SelfVote(s.replicas[c.leader], cmd)]
    && NextBlock(s.replicas[c.leader], cmd) in s1.proposals
  }

  lemma GoesOut(c: Config, byzantine: set<Id>, run: seq<Action>, cmd: string, f: Id)
    requires Setting(c, byzantine) && byzantine <= c.members && Exec(c, byzantine, run).Some? && f != c.leader
    requires var s := Exec(c, byzantine, run).value;
             c.leader in s.replicas && f in s.replicas && MayPropose(c, s.replicas[c.leader])
    ensures Exec(c, byzantine, run + [ProposeNext(cmd)]).Some?
    ensures Out(c, byzantine, Exec(c, byzantine, run).value, Exec(c, byzantine, run + [ProposeNext(cmd)]).value, cmd, f)
  {
    RunSound(c, byzantine, run);
    ExecAdd(c, byzantine, run, ProposeNext(cmd));
    ProposeShape(c, byzantine, Exec(c, byzantine, run).value, ProposeNext(cmd));
  }

  lemma IsWelcome(c: Config, byzantine: set<Id>, s: System, s1: System, cmd: string, f: Id)
    requires Inv(c, byzantine, s) && Served(c, byzantine, s) && Out(c, byzantine, s, s1, cmd, f) && f != c.leader
    requires MayPropose(c, s.replicas[c.leader]) && s.replicas[c.leader].head in s.replicas[f].blocks
    ensures var b := NextBlock(s.replicas[c.leader], cmd);
            && Sound(s1.replicas[f]) && b.height > s1.replicas[f].vHeight
            && Acceptable(c, KeysOf(byzantine, s1.history), s1.replicas[f], Proposal(b, c.leader), true)
  {
    assert NamedOk(c, byzantine, s, c.leader) && NamedOk(c, byzantine, s, f);
    ValidGrows(c, byzantine, s.history, s1.history, s.replicas[c.leader].qcHigh);
    NextIsWelcome(c, byzantine, s.history, KeysOf(byzantine, s1.history), s.replicas[c.leader], s.replicas[f], cmd);
  }

  lemma DeliverNext(c: Config, byzantine: set<Id>, run: seq<Action>, b: Block, f: Id)
    requires Setting(c, byzantine) && byzantine <= c.members && Exec(c, byzantine, run).Some?
    requires var s := Exec(c, byzantine, run).value;
             && f in s.replicas && b in s.proposals && Sound(s.replicas[f]) && b.height > s.replicas[f].vHeight
             && Acceptable(c, KeysOf(byzantine, s.history), s.replicas[f], Proposal(b, c.leader), true)
    ensures var run' := run + [Deliver(f, Proposal(b, c.leader), true, true)];
            Exec(c, byzantine, run').Some? && HasVoted(Exec(c, byzantine, run').value.history, f, b.id)
  {
    var s, d := Exec(c, byzantine, run).value, Deliver(f, Proposal(b, c.leader), true, true);
    RunSound(c, byzantine, run);
    ExecAdd(c, byzantine, run, d);
    Answers(c, byzantine, s, d);
  }

  /** From every reachable state in which a correct leader may propose: it can, and every correct follower that knows the
      parent of the new block accepts the proposal and votes for it. */
  lemma NeverRefused(c: Config, byzantine: set<Id>, run: seq<Action>, cmd: string, f: Id)
    requires Setting(c, byzantine) && byzantine <= c.members && Exec(c, byzantine, run).Some?
    requires c.leader in c.members - byzantine && f in c.members - byzantine && f != c.leader
    requires var s := Exec(c, byzantine, run).value;
             && c.leader in s.replicas && f in s.replicas && MayPropose(c, s.replicas[c.leader])
             && s.replicas[c.leader].head in s.replicas[f].blocks
    ensures var b := NextBlock(Exec(c, byzantine, run).value.replicas[c.leader], cmd);
            var run' := run + [ProposeNext(cmd)] + [Deliver(f, Proposal(b, c.leader), true, true)];
            Exec(c, byzantine, run').Some? && HasVoted(Exec(c, byzantine, run').value.history, f, b.id)
  {
    var s, run1 := Exec(c, byzantine, run).value, run + [ProposeNext(cmd)];
    RunServes(c, byzantine, run);
    RunKeeps(c, byzantine, run);
    GoesOut(c, byzantine, run, cmd, f);
    IsWelcome(c, byzantine, s, Exec(c, byzantine, run1).value, cmd, f);
    DeliverNext(c, byzantine, run1, NextBlock(s.replicas[c.leader], cmd), f);
  }
}
