/** The handlers of a replica as functions from state to state. `Sound` is what every handler keeps: the tree holds the
    genesis block and, with every block, its parent. */
module HsSpec {
  import opened Options
  import opened HsTypes

  predicate Sound(r: Replica) {
    && Genesis in r.blocks && r.bLock in r.blocks && r.bExec in r.blocks && r.head in r.blocks
    && (forall b :: b in r.blocks ==> r.blocks[b].id == b && r.blocks[b].height == Height(b))
    && (forall b :: b in r.blocks ==> if b.Genesis? then r.blocks[b].parent.None?
                                      else r.blocks[b].parent == Some(b.parent) && b.parent in r.blocks)
  }

  function Content(b: Block): Option<BlockId> {
    if b.parent.None? then None else Some(Digest(b.view, b.height, b.parent.value, b.cmd))
  }

  predicate QCValid(c: Config, k: Keys, blocks: map<BlockId, Block>, qc: QC)
    requires c.members != {}
  {
    if qc.node.Genesis? then qc.height == 0
    else
      && |qc.voters| >= Quorum(c)
      && (qc.node in blocks ==> blocks[qc.node].height == qc.height)
      && qc.voters <= c.members && forall v :: v in qc.voters ==> Verifies(k, Vote(qc.height, qc.node, v))
  }

  /** A direct child that certifies its parent. */
  predicate OneChained(parent: Block, child: Block) {
    child.parent == Some(parent.id) && child.justify.node == parent.id
  }

  /** Whether the walk from a block towards the root meets the lock. */
  predicate ExtendsFrom(blocks: map<BlockId, Block>, cur: BlockId, lock: BlockId) {
    cur == lock || (cur in blocks && !cur.Genesis? && ExtendsFrom(blocks, cur.parent, lock))
  }

  /** The blocks from just above `stop` up to `b`, oldest first. The walk ends at the root if it does not meet `stop`. */
  function Span(blocks: map<BlockId, Block>, b: BlockId, stop: BlockId): seq<BlockId> {
    if b == stop || b !in blocks then []
    else if b.Genesis? then [b]
    else Span(blocks, b.parent, stop) + [b]
  }

  /** The blocks of a span whose commands are executed. */
  function Commands(blocks: map<BlockId, Block>, span: seq<BlockId>): seq<Effect>
    decreases |span|
  {
    if span == [] then []
    else
      var b := span[|span| - 1];
      Commands(blocks, span[..|span| - 1]) + (if b in blocks && blocks[b].cmd != "" && !b.Genesis? then [Run(b)] else [])
  }

  function CommitUpTo(r: Replica, gp: BlockId): Replica {
    var span := Span(r.blocks, gp, r.bExec);
    var exec := if span == [] then r.bExec else span[|span| - 1];
    r.(bExec := exec, committed := r.committed + span,
       journal := r.journal + Commands(r.blocks, span) + [Write(AppliedRecord(exec))])
  }

  /** The 2-chain lock and the 3-chain commit below a certified block. */
  function Fold(r: Replica, node: BlockId): Replica
    requires Sound(r)
  {
    if node !in r.blocks || node.Genesis? then r
    else
      var cert := r.blocks[node];
      var parent := r.blocks[node.parent];
      if !OneChained(parent, cert) then r
      else
        var r1 := if parent.height > Height(r.bLock) then r.(bLock := parent.id) else r;
        if parent.id.Genesis? then r1
        else
          var gp := r.blocks[parent.id.parent];
          if OneChained(gp, parent) && gp.height > Height(r.bExec) then CommitUpTo(r1, gp.id) else r1
  }

  /** Takes note of a certificate that is higher than any before. */
  function OnNewQC(c: Config, k: Keys, r: Replica, qc: QC): Replica
    requires c.members != {} && Sound(r)
  {
    if !QCValid(c, k, r.blocks, qc) || qc.height <= r.qcHigh.height then r
    else Fold(r.(qcHigh := qc, journal := r.journal + [Write(QCRecord(qc))]), qc.node)
  }

  /** Puts a block into the tree. */
  function Insert(r: Replica, b: Block): (r': Replica)
    requires Sound(r) && Content(b) == Some(b.id) && b.parent.value in r.blocks
    ensures Sound(r')
  {
    r.(blocks := r.blocks[b.id := b], head := if b.height > Height(r.head) then b.id else r.head,
       journal := r.journal + [Write(BlockRecord(b))])
  }

  /** Whether a proposal passes all checks. `signed` says that the leader has signed it. */
  predicate Acceptable(c: Config, k: Keys, r: Replica, p: Proposal, signed: bool)
    requires c.members != {} && Sound(r)
  {
    var b := p.block;
    && Content(b) == Some(b.id) && b.id !in r.blocks && b.height > Height(r.bExec)
    && b.parent.value in r.blocks
    && QCValid(c, k, r.blocks, b.justify) && b.justify.node == b.parent.value && b.height > Height(b.parent.value)
    && p.from == c.leader && signed && b.view == 0
    && (ExtendsFrom(r.blocks, b.parent.value, r.bLock) || b.justify.height > Height(r.bLock))
  }

  /** Votes at a height above all earlier votes, once that height is durable. */
  function CastVote(r: Replica, b: Block, durable: bool): (Replica, Option<Vote>) {
    if b.height <= r.vHeight then (r, None)
    else if !durable then (r.(vHeight := b.height), None)
    else
      var v := Vote(b.height, b.id, r.id);
      (r.(vHeight := b.height, journal := r.journal + [Write(VotedRecord(b.height)), Send(v)]), Some(v))
  }

  function HandleProposal(c: Config, k: Keys, r: Replica, p: Proposal, signed: bool, durable: bool): (Replica, Option<Vote>)
    requires c.members != {} && Sound(r)
  {
    if !Acceptable(c, k, r, p, signed) then (r, None)
    else
      var r1 := Insert(r, p.block);
      CastVote(OnNewQC(c, k, r1, p.block.justify), p.block, durable)
  }

  /** Counts a vote, and forms the certificate when a quorum is complete. */
  function VoteForBlock(c: Config, k: Keys, r: Replica, v: Vote): Replica
    requires c.members != {} && Sound(r)
  {
    if v.node !in r.blocks || v.voter !in c.members || v.height != Height(v.node) || !Verifies(k, v) then r
    else
      var sofar := if v.node in r.votes then r.votes[v.node] else {};
      if v.voter in sofar then r
      else
        var all := sofar + {v.voter};
        var r1 := r.(votes := r.votes[v.node := all]);
        if |all| < Quorum(c) || v.node in r.qcFormed then r1
        else
          var r2 := r1.(qcFormed := r1.qcFormed + {v.node});
          OnNewQC(c, k, r2, QC(v.node, v.height, all))
  }

  /** The height of the tallest block. */
  ghost function MaxHeight(ids: set<BlockId>): (m: nat)
    ensures forall b :: b in ids ==> Height(b) <= m
    ensures ids != {} ==> exists b :: b in ids && Height(b) == m
  {
    if ids == {} then 0
    else
      var b :| b in ids;
      var rest := MaxHeight(ids - {b});
      assert forall x :: x in ids ==> x == b || x in ids - {b};
      if Height(b) > rest then Height(b) else rest
  }

  /** The next block of the leader: on top of the head, above every block it knows. */
  ghost function NextBlock(r: Replica, cmd: string): Block {
    var h0, top := Height(r.head) + 1, MaxHeight(r.blocks.Keys);
    var h := if h0 <= top then top + 1 else h0;
    Block(Digest(0, h, r.head, cmd), 0, h, Some(r.head), cmd, r.qcHigh)
  }

  predicate MayPropose(c: Config, r: Replica) {
    r.id == c.leader && r.qcHigh.node == r.head
  }

  /** The leader puts its block into the tree and votes for it; the vote needs no height guard. */
  ghost function Propose(c: Config, k: Keys, r: Replica, cmd: string): (Replica, Proposal)
    requires c.members != {} && Sound(r) && MayPropose(c, r)
  {
    var b := NextBlock(r, cmd);
    var r1 := Insert(r, b).(head := b.id);
    (VoteForBlock(c, k, r1, Vote(b.height, b.id, r.id)), Proposal(b, r.id))
  }
}
