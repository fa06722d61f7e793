/** Every step of the system keeps the invariant. */
module HsSafety {
  import opened Options
  import opened HsTypes
  import opened HsSpec
  import opened HsRecovery
  import opened HsDurable
  import opened HsOnce
  import opened HsQuorum
  import opened HsHistory
  import opened HsSystem
  import opened HsInvariant

  // ---- certificates ----

  /** A certificate that verifies certifies its block, at the block's own height. */
  lemma QCMeans(c: Config, byzantine: set<Id>, h: seq<Event>, blocks: map<BlockId, Block>, qc: QC)
    requires Setting(c, byzantine) && QCValid(c, KeysOf(byzantine, h), blocks, qc)
    ensures Certified(c, byzantine, h, qc.node) && qc.height == Height(qc.node)
  {
    if !qc.node.Genesis? {
      forall v | v in qc.voters ensures v in Voters(c, byzantine, h, qc.node) {
        if v !in byzantine { var i := Signer(byzantine, h, Vote(qc.height, qc.node, v)); }
      }
      SubsetSize(qc.voters, Voters(c, byzantine, h, qc.node));
      var v := CommonCorrect(c, byzantine, qc.voters, qc.voters);
      var i := Signer(byzantine, h, Vote(qc.height, qc.node, v));
    }
  }

  lemma Signer(byzantine: set<Id>, h: seq<Event>, v: Vote) returns (i: nat)
    requires Verifies(KeysOf(byzantine, h), v) && v.voter !in byzantine
    ensures i < |h| && VoteOf(h[i]) == v && HasVoted(h, v.voter, v.node)
  {
    var e :| e in h && VoteOf(e) == v;
    i :| 0 <= i < |h| && h[i] == e;
  }

  // ---- growing histories ----

  lemma TreeGrows(c: Config, byzantine: set<Id>, h: seq<Event>, h': seq<Event>, r: Replica)
    requires c.members != {} && h <= h' && TreeOk(c, byzantine, h, r)
    ensures TreeOk(c, byzantine, h', r)
  {
    forall b | b in r.blocks && !b.Genesis? ensures Certified(c, byzantine, h', b.parent) {
      VotersGrow(c, byzantine, h, h', b.parent);
    }
  }

  lemma LockGrows(c: Config, byzantine: set<Id>, h: seq<Event>, h': seq<Event>, r: Replica)
    requires c.members != {} && h <= h' && LockOk(c, byzantine, h, r)
    ensures LockOk(c, byzantine, h', r)
  {
    VotersGrow(c, byzantine, h, h', r.qcHigh.node);
    VotersGrow(c, byzantine, h, h', r.bLock);
  }

  /** One more vote. */
  lemma HistoryGrows(c: Config, byzantine: set<Id>, h: seq<Event>, e: Event)
    requires c.members != {} && HistoryOk(c, byzantine, h) && EventOk(c, byzantine, h, e)
    requires forall x :: x in h ==> InOrder(x, e)
    ensures HistoryOk(c, byzantine, h + [e])
  {
    var h' := h + [e];
    forall j | 0 <= j < |h'| ensures EventOk(c, byzantine, h'[..j], h'[j]) {
      assert h'[..j] == h[..j];
      if j == |h| { assert h[..j] == h; }
    }
  }

  // ---- a certificate is taken in ----

  /** What `Fold` leaves alone, and what it does to lock and committed block. */
  lemma FoldFacts(r: Replica, node: BlockId)
    requires Sound(r)
    ensures var r' := Fold(r, node);
            && r' == r.(bLock := r'.bLock, bExec := r'.bExec, committed := r'.committed, journal := r'.journal) && Sound(r')
            && Height(r'.bLock) >= Height(r.bLock)
            && (r'.bLock == r.bLock || (!node.Genesis? && r'.bLock == node.parent))
    ensures var r' := Fold(r, node);
            if r'.bExec == r.bExec then r'.committed == r.committed
            else
              && ChainBelow(node).2 == node && !node.Genesis? && node in r.blocks && r'.bExec == ChainBelow(node).0
              && Height(r'.bExec) > Height(r.bExec) && r'.committed == r.committed + Span(r.blocks, r'.bExec, r.bExec)
  {
    if node in r.blocks && !node.Genesis? && !node.parent.Genesis? {
      var gp := node.parent.parent;
      if Height(gp) > Height(r.bExec) { SpanLast(r.blocks, gp, r.bExec); }
    }
  }

  lemma FoldLocks(r: Replica, node: BlockId)
    requires Sound(r) && node in r.blocks && !node.Genesis? && r.blocks[node].justify.node == node.parent
    ensures Height(Fold(r, node).bLock) >= Height(node.parent)
  {
  }

  /** How the committed block may move: not at all, or to the grandparent of the highest certified block. */
  predicate ExecMoves(r: Replica, r': Replica) {
    if r'.bExec == r.bExec then r'.committed == r.committed || r'.committed == Path(r'.bExec)
    else
      && r'.qcHigh.node in r'.blocks && !r'.qcHigh.node.Genesis? && !r'.qcHigh.node.parent.Genesis?
      && r'.bExec == ChainBelow(r'.qcHigh.node).0 && Height(r'.bExec) > Height(r.bExec)
      && (r'.committed == r.committed + Span(r'.blocks, r'.bExec, r.bExec) || r'.committed == Path(r'.bExec))
  }

  predicate SameTree(r: Replica, r': Replica) {
    r'.id == r.id && r'.blocks == r.blocks && r'.head == r.head && r'.vHeight == r.vHeight
  }

  lemma TakeQC(c: Config, byzantine: set<Id>, h: seq<Event>, r: Replica, qc: QC)
    requires Setting(c, byzantine) && Sound(r) && TreeOk(c, byzantine, h, r) && LockOk(c, byzantine, h, r)
    requires qc.node in r.blocks
    ensures var r' := OnNewQC(c, KeysOf(byzantine, h), r, qc);
            && Sound(r') && SameTree(r, r') && TreeOk(c, byzantine, h, r') && LockOk(c, byzantine, h, r')
            && Height(r'.bLock) >= Height(r.bLock) && r'.qcHigh.height >= r.qcHigh.height
            && (QCValid(c, KeysOf(byzantine, h), r.blocks, qc) ==> r'.qcHigh.height >= qc.height)
            && ExecMoves(r, r')
  {
    var k := KeysOf(byzantine, h);
    if QCValid(c, k, r.blocks, qc) && qc.height > r.qcHigh.height {
      QCMeans(c, byzantine, h, r.blocks, qc);
      var r1 := r.(qcHigh := qc, journal := r.journal + [Write(QCRecord(qc))]);
      FoldFacts(r1, qc.node);
      FoldLocks(r1, qc.node);
    }
  }

  // ---- a proposal is delivered ----

  lemma {:induction false} WalkIsExtends(blocks: map<BlockId, Block>, b: BlockId, lock: BlockId)
    requires ExtendsFrom(blocks, b, lock)
    ensures Extends(b, lock)
    decreases b
  {
    if b != lock { WalkIsExtends(blocks, b.parent, lock); }
  }

  /** The tree with the accepted block. */
  lemma InsertOk(c: Config, byzantine: set<Id>, h: seq<Event>, r: Replica, b: Block)
    requires c.members != {} && Sound(r) && TreeOk(c, byzantine, h, r) && LockOk(c, byzantine, h, r)
    requires Content(b) == Some(b.id) && b.parent.value in r.blocks && b.id !in r.blocks
    requires Certified(c, byzantine, h, b.parent.value) && b.height > Height(b.parent.value)
    requires b.justify.node == b.parent.value
    ensures var r1 := Insert(r, b); Sound(r1) && TreeOk(c, byzantine, h, r1) && LockOk(c, byzantine, h, r1)
  {
  }

  /** What is left of an accepted proposal before the vote. */
  ghost function Accepted(c: Config, byzantine: set<Id>, h: seq<Event>, r: Replica, b: Block): Replica
    requires c.members != {} && Sound(r) && Content(b) == Some(b.id) && b.parent.value in r.blocks
  {
    OnNewQC(c, KeysOf(byzantine, h), Insert(r, b), b.justify)
  }

  lemma AcceptKeeps(c: Config, byzantine: set<Id>, h: seq<Event>, r: Replica, p: Proposal, signed: bool)
    requires Setting(c, byzantine) && Sound(r) && TreeOk(c, byzantine, h, r) && LockOk(c, byzantine, h, r)
    requires Acceptable(c, KeysOf(byzantine, h), r, p, signed)
    ensures var r' := Accepted(c, byzantine, h, r, p.block);
            && Sound(r') && TreeOk(c, byzantine, h, r') && LockOk(c, byzantine, h, r')
            && Height(r'.bLock) >= Height(r.bLock) && r'.id == r.id && r'.vHeight == r.vHeight
            && r'.blocks == r.blocks[p.block.id := p.block] && ExecMoves(r, r')
            && r'.qcHigh.height >= Height(p.block.id.parent)
    ensures Certified(c, byzantine, h, p.block.id.parent) && Height(p.block.id) == p.block.height
    ensures Extends(p.block.id, r.bLock) || Height(p.block.id.parent) > Height(r.bLock)
  {
    var b := p.block;
    QCMeans(c, byzantine, h, r.blocks, b.justify);
    InsertOk(c, byzantine, h, r, b);
    var r1 := Insert(r, b);
    assert QCValid(c, KeysOf(byzantine, h), r1.blocks, b.justify);
    TakeQC(c, byzantine, h, r1, b.justify);
    if ExtendsFrom(r.blocks, b.parent.value, r.bLock) { WalkIsExtends(r.blocks, b.parent.value, r.bLock); }
  }
}
