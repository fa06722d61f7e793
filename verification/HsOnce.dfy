/** Executed commands in the journal: they lie on the branch of the committed block and rise in height, so that no command
    is ever executed twice. */
module HsOnce {
  import opened Options
  import opened HsTypes
  import opened HsSpec
  import opened HsHistory
  import opened HsDurable

  predicate RunsOk(j: seq<Effect>, exec: BlockId) {
    && (forall i :: 0 <= i < |j| && j[i].Run? ==> Extends(exec, j[i].block))
    && (forall i, k :: 0 <= i < k < |j| && j[i].Run? && j[k].Run? ==> Height(j[i].block) < Height(j[k].block))
  }

  lemma RunsPrefix(j: seq<Effect>, exec: BlockId, n: nat)
    requires RunsOk(j, exec) && n <= |j|
    ensures RunsOk(j[..n], exec)
  {
  }

  predicate Idle(j: seq<Effect>, j': seq<Effect>) {
    j <= j' && forall i :: |j| <= i < |j'| ==> !j'[i].Run?
  }

  lemma RunsIdle(j: seq<Effect>, j': seq<Effect>, exec: BlockId)
    requires RunsOk(j, exec) && Idle(j, j')
    ensures RunsOk(j', exec)
  {
    assert forall i :: 0 <= i < |j| ==> j'[i] == j[i];
  }

  /** A branch above `stop`, from the lowest to the highest block. */
  predicate Climb(span: seq<BlockId>, gp: BlockId, floor: nat) {
    && (forall i :: 0 <= i < |span| ==> Extends(gp, span[i]) && Height(span[i]) > floor)
    && (forall i, k :: 0 <= i < k < |span| ==> Height(span[i]) < Height(span[k]))
  }

  lemma {:induction false} SpanClimbs(blocks: map<BlockId, Block>, b: BlockId, stop: BlockId)
    requires Extends(b, stop) && Rising(b)
    ensures Climb(Span(blocks, b, stop), b, Height(stop))
    ensures forall i :: 0 <= i < |Span(blocks, b, stop)| ==> Height(Span(blocks, b, stop)[i]) <= Height(b)
    decreases b
  {
    if b != stop && b in blocks {
      SpanClimbs(blocks, b.parent, stop);
      RisingAbove(b.parent, stop);
      var below := Span(blocks, b.parent, stop);
      assert forall i :: 0 <= i < |below| ==> Span(blocks, b, stop)[i] == below[i] && Extends(b.parent, below[i]);
    }
  }

  /** The heights of all executed commands. */
  predicate RunsBelow(j: seq<Effect>, top: nat) {
    forall i :: 0 <= i < |j| && j[i].Run? ==> Height(j[i].block) <= top
  }

  lemma {:induction false} CommandsClimb(blocks: map<BlockId, Block>, j: seq<Effect>, gp: BlockId, span: seq<BlockId>, floor: nat)
    requires RunsOk(j, gp) && RunsBelow(j, floor) && Climb(span, gp, floor)
    ensures RunsOk(j + Commands(blocks, span), gp)
    ensures RunsBelow(j + Commands(blocks, span), if span == [] then floor else Height(span[|span| - 1]))
    decreases |span|
  {
    if span == [] {
      assert j + Commands(blocks, span) == j;
    } else {
      var front, b := span[..|span| - 1], span[|span| - 1];
      CommandsClimb(blocks, j, gp, front, floor);
      var tail := if b in blocks && blocks[b].cmd != "" && !b.Genesis? then [Run(b)] else [];
      Assoc(j, Commands(blocks, front), tail);
      OneMore(j + Commands(blocks, front), gp, if front == [] then floor else Height(front[|front| - 1]), b, tail);
    }
  }

  lemma OneMore(j: seq<Effect>, gp: BlockId, top: nat, b: BlockId, tail: seq<Effect>)
    requires RunsOk(j, gp) && RunsBelow(j, top) && Extends(gp, b) && Height(b) > top && (tail == [] || tail == [Run(b)])
    ensures RunsOk(j + tail, gp) && RunsBelow(j + tail, Height(b))
  {
    if tail == [] { assert j + tail == j; }
  }

  /** Executed commands stay executed when the committed block moves up its branch. */
  lemma RunsLift(j: seq<Effect>, exec: BlockId, gp: BlockId)
    requires RunsOk(j, exec) && Extends(gp, exec) && Rising(gp)
    ensures RunsOk(j, gp) && RunsBelow(j, Height(exec))
  {
    RisingAbove(gp, exec);
    forall i | 0 <= i < |j| && j[i].Run? ensures Extends(gp, j[i].block) && Height(j[i].block) <= Height(exec) {
      ExtendsTransitive(gp, exec, j[i].block);
      RisingAbove(exec, j[i].block);
    }
  }

  lemma CommitRuns(r: Replica, gp: BlockId)
    requires RunsOk(r.journal, r.bExec) && Extends(gp, r.bExec) && Rising(gp)
    ensures RunsOk(r.journal + CommitTail(r, gp), gp)
  {
    var span := Span(r.blocks, gp, r.bExec);
    RunsLift(r.journal, r.bExec, gp);
    SpanClimbs(r.blocks, gp, r.bExec);
    CommandsClimb(r.blocks, r.journal, gp, span, Height(r.bExec));
    var last := [Write(AppliedRecord(if span == [] then r.bExec else span[|span| - 1]))];
    Assoc(r.journal, Commands(r.blocks, span), last);
    RunsIdle(r.journal + Commands(r.blocks, span), r.journal + Commands(r.blocks, span) + last, gp);
  }

  // ---- handlers ----

  /** If the committed block only moves up its branch, the journal stays in order. */
  predicate RunsMove(r: Replica, r': Replica) {
    RunsOk(r.journal, r.bExec) && (r'.bExec == r.bExec || (Extends(r'.bExec, r.bExec) && Rising(r'.bExec)))
    ==> RunsOk(r'.journal, r'.bExec)
  }

  lemma TakenRuns(c: Config, k: Keys, r: Replica, qc: QC)
    requires c.members != {} && Sound(r)
    ensures RunsMove(r, OnNewQC(c, k, r, qc))
  {
    var r' := OnNewQC(c, k, r, qc);
    if QCValid(c, k, r.blocks, qc) && qc.height > r.qcHigh.height && RunsOk(r.journal, r.bExec)
       && (r'.bExec == r.bExec || (Extends(r'.bExec, r.bExec) && Rising(r'.bExec))) {
      var r1 := r.(qcHigh := qc, journal := r.journal + [Write(QCRecord(qc))]);
      RunsIdle(r.journal, r1.journal, r.bExec);
      FoldJournal(r1, qc.node);
      if r'.bExec != r.bExec {
        CommitRuns(r1, r'.bExec);
      } else {
        assert r1.journal + [] == r1.journal;
      }
    }
  }

  lemma CountRuns(c: Config, k: Keys, r: Replica, v: Vote)
    requires c.members != {} && Sound(r)
    ensures RunsMove(r, VoteForBlock(c, k, r, v))
  {
    VoteCases(c, k, r, v);
    var r' := VoteForBlock(c, k, r, v);
    if r' != r.(votes := r'.votes) {
      TakenRuns(c, k, Counted(r, v), QC(v.node, v.height, AllVoters(r, v)));
    }
  }

  lemma InsertRuns(r: Replica, r1: Replica, b: Block)
    requires r1.journal == r.journal + [Write(BlockRecord(b))] && r1.bExec == r.bExec && RunsOk(r.journal, r.bExec)
    ensures RunsOk(r1.journal, r1.bExec)
  {
    RunsIdle(r.journal, r1.journal, r.bExec);
  }

  lemma CastRuns(r: Replica, b: Block, durable: bool)
    requires RunsOk(r.journal, r.bExec)
    ensures var r' := CastVote(r, b, durable).0; RunsOk(r'.journal, r'.bExec)
  {
    var r' := CastVote(r, b, durable).0;
    RunsIdle(r.journal, r'.journal, r.bExec);
  }
}
