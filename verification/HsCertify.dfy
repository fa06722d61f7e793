/** Certificates do get formed: whatever votes reach the leader, in whatever order, a quorum of verifying votes for a known
    block leaves it with a certificate that is at least as high. */
module HsCertify {
  import opened Options
  import opened HsTypes
  import opened HsSpec
  import opened HsRecovery
  import opened HsDurable
  import opened HsQuorum
  import opened HsHistory
  import opened HsSystem
  import opened HsInvariant
  import opened HsSafety
  import opened HsSteps
  import opened HsCrash
  import opened HsTheorems
  import opened HsSkips

  /** Every vote that has been counted verifies. */
  predicate VotesOk(c: Config, k: Keys, r: Replica) {
    forall b :: b in r.votes ==>
      b in r.blocks && r.votes[b] <= c.members && forall v :: v in r.votes[b] ==> Verifies(k, Vote(Height(b), b, v))
  }

  /** A block with a quorum of votes has had its certificate formed, and the highest certificate is no lower. */
  predicate FormedOk(c: Config, r: Replica)
    requires c.members != {}
  {
    && (forall b :: b in r.qcFormed ==> Height(b) <= r.qcHigh.height)
    && (forall b :: b in r.votes && |r.votes[b]| >= Quorum(c) ==> b in r.qcFormed)
  }

  predicate Counting(c: Config, k: Keys, r: Replica)
    requires c.members != {}
  {
    VotesOk(c, k, r) && FormedOk(c, r)
  }

  /** What a certificate does to the bookkeeping of votes: nothing, but the highest certificate rises to it. */
  lemma TakenCounts(c: Config, k: Keys, r: Replica, qc: QC)
    requires c.members != {} && Sound(r)
    ensures var r' := OnNewQC(c, k, r, qc);
            && Sound(r') && r'.votes == r.votes && r'.qcFormed == r.qcFormed && r'.blocks == r.blocks && r'.head == r.head
            && r'.id == r.id && r'.vHeight == r.vHeight
            && r'.qcHigh.height >= r.qcHigh.height && (QCValid(c, k, r.blocks, qc) ==> r'.qcHigh.height >= qc.height)
            && (r'.qcHigh == r.qcHigh || (r'.qcHigh == qc && QCValid(c, k, r.blocks, qc)))
  {
    FoldFacts(r.(qcHigh := qc, journal := r.journal + [Write(QCRecord(qc))]), qc.node);
  }

  predicate Counts(c: Config, k: Keys, r: Replica, v: Vote) {
    v.node in r.blocks && v.voter in c.members && v.height == Height(v.node) && Verifies(k, v)
  }

  /** Votes are only added, and this one is among them if it counts. */
  predicate Gathers(r: Replica, r': Replica, v: Vote, counts: bool) {
    && (forall b :: b in r.votes ==> b in r'.votes && r.votes[b] <= r'.votes[b])
    && (counts ==> v.node in r'.votes && v.voter in r'.votes[v.node])
  }

  lemma CountOne(c: Config, k: Keys, r: Replica, v: Vote)
    requires c.members != {} && Sound(r) && Counting(c, k, r)
    ensures CountedOk(c, k, r, VoteForBlock(c, k, r, v), v)
  {
    var all := Sofar(r, v.node) + {v.voter};
    var r1 := r.(votes := r.votes[v.node := all]);
    VoteIs(c, k, r, v, all, r1);
    if Counts(c, k, r, v) && v.voter !in Sofar(r, v.node) {
      OneMore(c, k, r, v, all, r1);
      if |all| >= Quorum(c) && v.node !in r.qcFormed {
        FormOne(c, k, r1, v, all);
      } else {
        StillFormed(c, r, r1, v.node, all);
      }
    } else {
      NothingCounted(c, k, r, v);
    }
  }

  lemma VoteIs(c: Config, k: Keys, r: Replica, v: Vote, all: set<Id>, r1: Replica)
    requires c.members != {} && Sound(r)
    requires all == Sofar(r, v.node) + {v.voter} && r1 == r.(votes := r.votes[v.node := all])
    ensures Sound(r1)
    ensures VoteForBlock(c, k, r, v) ==
            if !Counts(c, k, r, v) || v.voter in Sofar(r, v.node) then r
            else if |all| < Quorum(c) || v.node in r.qcFormed then r1
            else OnNewQC(c, k, r1.(qcFormed := r1.qcFormed + {v.node}), QC(v.node, v.height, all))
  {
  }

  lemma NothingCounted(c: Config, k: Keys, r: Replica, v: Vote)
    requires c.members != {} && Sound(r) && Counting(c, k, r)
    requires !Counts(c, k, r, v) || v.voter in Sofar(r, v.node)
    ensures CountedOk(c, k, r, r, v)
  {
  }

  /** The vote has been dealt with: the books are in order, and nothing but votes and certificates has changed. */
  predicate CountedOk(c: Config, k: Keys, r: Replica, r': Replica, v: Vote)
    requires c.members != {}
  {
    && Sound(r') && Counting(c, k, r') && r'.blocks == r.blocks && r'.head == r.head && r'.id == r.id
    && Gathers(r, r', v, Counts(c, k, r, v))
    && (r'.qcHigh == r.qcHigh || QCValid(c, k, r.blocks, r'.qcHigh))
  }

  lemma OneMore(c: Config, k: Keys, r: Replica, v: Vote, all: set<Id>, r1: Replica)
    requires VotesOk(c, k, r) && Counts(c, k, r, v) && all == Sofar(r, v.node) + {v.voter}
    requires r1 == r.(votes := r.votes[v.node := all])
    ensures VotesOk(c, k, r1) && Gathers(r, r1, v, true)
  {
    assert v == Vote(Height(v.node), v.node, v.voter);
  }

  function Sofar(r: Replica, b: BlockId): set<Id> {
    if b in r.votes then r.votes[b] else {}
  }

  lemma StillFormed(c: Config, r: Replica, r1: Replica, b: BlockId, all: set<Id>)
    requires c.members != {} && FormedOk(c, r) && r1 == r.(votes := r.votes[b := all])
    requires |all| < Quorum(c) || b in r.qcFormed
    ensures FormedOk(c, r1)
  {
  }

  lemma FormOne(c: Config, k: Keys, r1: Replica, v: Vote, all: set<Id>)
    requires c.members != {} && Sound(r1) && VotesOk(c, k, r1) && v.node in r1.blocks && v.height == Height(v.node)
    requires v.node in r1.votes && r1.votes[v.node] == all && |all| >= Quorum(c)
    requires forall b :: b in r1.qcFormed ==> Height(b) <= r1.qcHigh.height
    requires forall b :: b in r1.votes && b != v.node && |r1.votes[b]| >= Quorum(c) ==> b in r1.qcFormed
    ensures var r' := OnNewQC(c, k, r1.(qcFormed := r1.qcFormed + {v.node}), QC(v.node, v.height, all));
            && Sound(r') && Counting(c, k, r') && r'.blocks == r1.blocks && r'.head == r1.head && r'.id == r1.id
            && r'.votes == r1.votes && (r'.qcHigh == r1.qcHigh || QCValid(c, k, r1.blocks, r'.qcHigh))
  {
    var r2, qc := r1.(qcFormed := r1.qcFormed + {v.node}), QC(v.node, v.height, all);
    assert QCValid(c, k, r2.blocks, qc);
    TakenCounts(c, k, r2, qc);
  }

  // ---- any sequence of votes ----

  /** The leader after a sequence of votes. */
  ghost function Fed(c: Config, k: Keys, r: Replica, vs: seq<Vote>): Replica
    requires c.members != {} && Sound(r)
    decreases |vs|
  {
    if vs == [] then r
    else
      var r1 := Fed(c, k, r, vs[..|vs| - 1]);
      if Sound(r1) then VoteForBlock(c, k, r1, vs[|vs| - 1]) else r1
  }

  lemma {:induction false} FedCounts(c: Config, k: Keys, r: Replica, vs: seq<Vote>)
    requires c.members != {} && Sound(r) && Counting(c, k, r)
    ensures var r' := Fed(c, k, r, vs);
            && Sound(r') && Counting(c, k, r') && r'.blocks == r.blocks && r'.head == r.head && r'.id == r.id
            && (forall v :: v in vs && Counts(c, k, r, v) ==> v.node in r'.votes && v.voter in r'.votes[v.node])
            && (r'.qcHigh == r.qcHigh || QCValid(c, k, r.blocks, r'.qcHigh))
    decreases |vs|
  {
    if vs != [] {
      var front, v := vs[..|vs| - 1], vs[|vs| - 1];
      FedCounts(c, k, r, front);
      CountOne(c, k, Fed(c, k, r, front), v);
      assert forall x :: x in vs ==> x in front || x == v;
    }
  }

  /** The votes hold a quorum for the block, from distinct members, at its height, that verifies. */
  predicate HoldsQuorum(c: Config, k: Keys, vs: seq<Vote>, b: BlockId, q: set<Id>)
    requires c.members != {}
  {
    && q <= c.members && |q| >= Quorum(c)
    && forall v :: v in q ==> Vote(Height(b), b, v) in vs && Verifies(k, Vote(Height(b), b, v))
  }

  lemma QuorumCertifies(c: Config, k: Keys, r: Replica, vs: seq<Vote>, b: BlockId, q: set<Id>)
    requires c.members != {} && Sound(r) && Counting(c, k, r) && b in r.blocks && HoldsQuorum(c, k, vs, b, q)
    ensures Fed(c, k, r, vs).qcHigh.height >= Height(b)
  {
    FedCounts(c, k, r, vs);
    var r' := Fed(c, k, r, vs);
    forall v | v in q ensures b in r'.votes && v in r'.votes[b] {
      assert Counts(c, k, r, Vote(Height(b), b, v));
    }
    var v :| v in q;
    SubsetSize(q, r'.votes[b]);
  }

  // ---- over every run ----

  lemma KeysGrow(byzantine: set<Id>, h: seq<Event>, h': seq<Event>, v: Vote)
    requires h <= h' && Verifies(KeysOf(byzantine, h), v)
    ensures Verifies(KeysOf(byzantine, h'), v)
  {
    assert forall e :: e in h ==> e in h';
  }

  lemma CountingGrows(c: Config, byzantine: set<Id>, h: seq<Event>, h': seq<Event>, r: Replica)
    requires c.members != {} && h <= h' && Counting(c, KeysOf(byzantine, h), r)
    ensures Counting(c, KeysOf(byzantine, h'), r)
  {
    forall b, v | b in r.votes && v in r.votes[b] ensures Verifies(KeysOf(byzantine, h'), Vote(Height(b), b, v)) {
      KeysGrow(byzantine, h, h', Vote(Height(b), b, v));
    }
  }

  lemma CountingExtended(c: Config, k: Keys, r: Replica, b: Block)
    requires c.members != {} && Sound(r) && Content(b) == Some(b.id) && b.parent.value in r.blocks && Counting(c, k, r)
    ensures Sound(Extended(r, b)) && Counting(c, k, Extended(r, b))
  {
  }

  lemma ProposeCounts(c: Config, byzantine: set<Id>, s: System, a: Action)
    requires c.members != {} && AllSound(s) && a.ProposeNext? && Enabled(c, s, a) && s.replicas[c.leader].id == c.leader
    requires Counting(c, KeysOf(byzantine, s.history), s.replicas[c.leader])
    ensures var s' := Complete(c, byzantine, s, a);
            c.leader in s'.replicas && Counting(c, KeysOf(byzantine, s'.history), s'.replicas[c.leader])
  {
    var r, h := s.replicas[c.leader], s.history;
    var h', b := h + [SelfVote(r, a.cmd)], NextBlock(r, a.cmd);
    ProposeShape(c, byzantine, s, a);
    CountingGrows(c, byzantine, h, h', r);
    CountingExtended(c, KeysOf(byzantine, h'), r, b);
    CountOne(c, KeysOf(byzantine, h'), Extended(r, b), Vote(b.height, b.id, r.id));
  }

  lemma CollectCounts(c: Config, byzantine: set<Id>, s: System, a: Action)
    requires c.members != {} && AllSound(s) && a.Collect? && Enabled(c, s, a) && s.replicas[c.leader].id == c.leader
    requires Counting(c, KeysOf(byzantine, s.history), s.replicas[c.leader])
    ensures var s' := Complete(c, byzantine, s, a);
            c.leader in s'.replicas && Counting(c, KeysOf(byzantine, s'.history), s'.replicas[c.leader])
  {
    CollectShape(c, byzantine, s, a);
    CountOne(c, KeysOf(byzantine, s.history), s.replicas[c.leader], a.v);
  }

  /** After a restart nothing has been counted yet. */
  lemma FreshCounts(c: Config, k: Keys, r: Replica)
    requires c.members != {} && r.votes == map[] && r.qcFormed == {}
    ensures Counting(c, k, r)
  {
  }

  lemma CrashCounts(c: Config, byzantine: set<Id>, s: System, a: Action)
    requires c.members != {} && AllSound(s) && a.Crash? && Enabled(c, s, a) && Actor(c, a) == c.leader && c.leader in s.replicas
    ensures var s' := Step(c, byzantine, s, a);
            c.leader in s'.replicas && Counting(c, KeysOf(byzantine, s'.history), s'.replicas[c.leader])
  {
    var s' := Step(c, byzantine, s, a);
    FreshCounts(c, KeysOf(byzantine, s'.history), s'.replicas[c.leader]);
  }

  lemma HistoryStays(c: Config, byzantine: set<Id>, s: System, a: Action)
    requires c.members != {} && AllSound(s) && Enabled(c, s, a)
    ensures s.history <= Step(c, byzantine, s, a).history
  {
  }

  lemma StepCounts(c: Config, byzantine: set<Id>, s: System, a: Action)
    requires Inv(c, byzantine, s) && AllSound(s) && Enabled(c, s, a) && c.leader in s.replicas
    requires Counting(c, KeysOf(byzantine, s.history), s.replicas[c.leader])
    ensures var s' := Step(c, byzantine, s, a);
            c.leader in s'.replicas && Counting(c, KeysOf(byzantine, s'.history), s'.replicas[c.leader])
  {
    assert NamedOk(c, byzantine, s, c.leader);
    if Actor(c, a) != c.leader {
      OthersStay(c, byzantine, s, a, c.leader);
      HistoryStays(c, byzantine, s, a);
      CountingGrows(c, byzantine, s.history, Step(c, byzantine, s, a).history, s.replicas[c.leader]);
    } else if a.Crash? {
      CrashCounts(c, byzantine, s, a);
    } else if a.ProposeNext? {
      ProposeCounts(c, byzantine, s, a);
    } else if a.Collect? {
      CollectCounts(c, byzantine, s, a);
    } else {
      LeaderIgnores(c, byzantine, s, a.p, a.signed, KeysOf(byzantine, s.history));
      RefusedShape(c, byzantine, s, a);
    }
  }

  /** In every reachable state the books of a correct leader are in order. */
  lemma {:induction false} LeaderCounts(c: Config, byzantine: set<Id>, run: seq<Action>)
    requires Setting(c, byzantine) && byzantine <= c.members && Exec(c, byzantine, run).Some?
    requires c.leader in c.members - byzantine
    ensures var s := Exec(c, byzantine, run).value;
            c.leader in s.replicas && Counting(c, KeysOf(byzantine, s.history), s.replicas[c.leader])
    decreases |run|
  {
    if run == [] {
      var s := Exec(c, byzantine, run).value;
      FreshCounts(c, KeysOf(byzantine, s.history), s.replicas[c.leader]);
    } else {
      var before, a := CutLast(run);
      assert run[..|run| - 1] == before;
      LeaderCounts(c, byzantine, before);
      RunKeeps(c, byzantine, before);
      StepCounts(c, byzantine, Exec(c, byzantine, before).value, a);
    }
  }

  function Collects(vs: seq<Vote>): seq<Action>
    decreases |vs|
  {
    if vs == [] then [] else Collects(vs[..|vs| - 1]) + [Collect(vs[|vs| - 1])]
  }

  /** Only the leader has moved, by the votes. */
  ghost predicate HasCollected(c: Config, byzantine: set<Id>, s: System, s': System, vs: seq<Vote>) {
    && c.members != {} && c.leader in s.replicas && Sound(s.replicas[c.leader])
    && s'.replicas == s.replicas[c.leader := Fed(c, KeysOf(byzantine, s.history), s.replicas[c.leader], vs)]
    && s'.history == s.history && s'.proposals == s.proposals
  }

  /** The votes can be collected one after the other. */
  lemma {:induction false} CollectAll(c: Config, byzantine: set<Id>, run: seq<Action>, vs: seq<Vote>)
    requires Setting(c, byzantine) && byzantine <= c.members && Exec(c, byzantine, run).Some?
    requires c.leader in c.members - byzantine
    ensures Exec(c, byzantine, run + Collects(vs)).Some?
    ensures HasCollected(c, byzantine, Exec(c, byzantine, run).value, Exec(c, byzantine, run + Collects(vs)).value, vs)
    decreases |vs|
  {
    var s := Exec(c, byzantine, run).value;
    RunSound(c, byzantine, run);
    if vs == [] {
      assert run + [] == run && s.replicas[c.leader := s.replicas[c.leader]] == s.replicas;
    } else {
      var front, v := vs[..|vs| - 1], vs[|vs| - 1];
      CollectAll(c, byzantine, run, front);
      CollectMore(c, byzantine, run + Collects(front), s, front, v);
      CollectsMore(run, vs);
    }
  }

  lemma CollectsMore(run: seq<Action>, vs: seq<Vote>)
    requires vs != []
    ensures var front, v := vs[..|vs| - 1], vs[|vs| - 1];
            run + Collects(vs) == run + Collects(front) + [Collect(v)] && front + [v] == vs
  {
  }

  lemma CollectMore(c: Config, byzantine: set<Id>, run: seq<Action>, s: System, front: seq<Vote>, v: Vote)
    requires Setting(c, byzantine) && byzantine <= c.members && Exec(c, byzantine, run).Some?
    requires HasCollected(c, byzantine, s, Exec(c, byzantine, run).value, front)
    ensures Exec(c, byzantine, run + [Collect(v)]).Some?
    ensures HasCollected(c, byzantine, s, Exec(c, byzantine, run + [Collect(v)]).value, front + [v])
  {
    var s1 := Exec(c, byzantine, run).value;
    RunSound(c, byzantine, run);
    ExecAdd(c, byzantine, run, Collect(v));
    CollectShape(c, byzantine, s1, Collect(v));
    CollectedOne(c, byzantine, s, s1, Step(c, byzantine, s1, Collect(v)), front, v);
  }

  lemma CollectedOne(c: Config, byzantine: set<Id>, s: System, s1: System, s': System, front: seq<Vote>, v: Vote)
    requires HasCollected(c, byzantine, s, s1, front) && c.leader in s1.replicas && Sound(s1.replicas[c.leader])
    requires var r' := VoteForBlock(c, KeysOf(byzantine, s1.history), s1.replicas[c.leader], v);
             s'.replicas == s1.replicas[c.leader := r'] && s'.history == s1.history && s'.proposals == s1.proposals
    ensures HasCollected(c, byzantine, s, s', front + [v])
  {
    FedMore(c, KeysOf(byzantine, s.history), s.replicas[c.leader], front, v);
    PutTwice(s.replicas, c.leader, s1.replicas[c.leader], s'.replicas[c.leader]);
  }

  lemma PutTwice(m: map<Id, Replica>, i: Id, a: Replica, b: Replica)
    ensures m[i := a][i := b] == m[i := b]
  {
  }

  lemma FedMore(c: Config, k: Keys, r: Replica, front: seq<Vote>, v: Vote)
    requires c.members != {} && Sound(r) && Sound(Fed(c, k, r, front))
    ensures Fed(c, k, r, front + [v]) == VoteForBlock(c, k, Fed(c, k, r, front), v)
  {
    assert (front + [v])[..|front|] == front;
  }

  /** What the invariant says about the shape of a reachable state. */
  lemma RunSound(c: Config, byzantine: set<Id>, run: seq<Action>)
    requires Setting(c, byzantine) && byzantine <= c.members && Exec(c, byzantine, run).Some?
    ensures var s := Exec(c, byzantine, run).value;
            AllSound(s) && s.replicas.Keys == c.members - byzantine && forall r :: r in s.replicas ==> s.replicas[r].id == r
  {
    RunKeeps(c, byzantine, run);
    var s := Exec(c, byzantine, run).value;
    InvSound(c, byzantine, s);
    forall r | r in s.replicas ensures s.replicas[r].id == r { assert NamedOk(c, byzantine, s, r); }
  }

  lemma ExecAdd(c: Config, byzantine: set<Id>, run: seq<Action>, a: Action)
    requires Setting(c, byzantine) && Exec(c, byzantine, run).Some?
    requires var s := Exec(c, byzantine, run).value; AllSound(s) && Enabled(c, s, a)
    ensures Exec(c, byzantine, run + [a]) == Some(Step(c, byzantine, Exec(c, byzantine, run).value, a))
  {
    assert (run + [a])[..|run|] == run;
  }

  /** From every reachable state, whatever votes the leader collects in whatever order: if a quorum of verifying votes for a
      block it knows is among them, its highest certificate is at least that high. */
  lemma VotesCertify(c: Config, byzantine: set<Id>, run: seq<Action>, vs: seq<Vote>, b: BlockId, q: set<Id>)
    requires Setting(c, byzantine) && byzantine <= c.members && Exec(c, byzantine, run).Some?
    requires c.leader in c.members - byzantine && c.leader in Exec(c, byzantine, run).value.replicas
    requires var s := Exec(c, byzantine, run).value;
             b in s.replicas[c.leader].blocks && HoldsQuorum(c, KeysOf(byzantine, s.history), vs, b, q)
    ensures Exec(c, byzantine, run + Collects(vs)).Some?
    ensures var s' := Exec(c, byzantine, run + Collects(vs)).value;
            c.leader in s'.replicas && s'.replicas[c.leader].qcHigh.height >= Height(b)
  {
    var s := Exec(c, byzantine, run).value;
    CollectAll(c, byzantine, run, vs);
    LeaderCounts(c, byzantine, run);
    QuorumCertifies(c, KeysOf(byzantine, s.history), s.replicas[c.leader], vs, b, q);
  }
}
