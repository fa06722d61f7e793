/** The replica as an object whose handlers update it in place, with the loops that check certificates, walk the
    ancestry, collect and execute a committed span and look for the tallest block. Each handler is proved equal to its
    function in `HsSpec`. */
module HsReplica {
  import opened Options
  import opened HsTypes
  import opened HsSpec

  function Reversed<T>(s: seq<T>): (r: seq<T>)
    ensures |r| == |s|
  {
    if s == [] then [] else [s[|s| - 1]] + Reversed(s[..|s| - 1])
  }

  lemma ReversedAdd<T>(s: seq<T>, x: T)
    ensures Reversed(s + [x]) == [x] + Reversed(s)
  {
    assert (s + [x])[..|s|] == s;
  }

  lemma {:induction false} ReversedConcat<T>(a: seq<T>, b: seq<T>)
    ensures Reversed(a + b) == Reversed(b) + Reversed(a)
    decreases |b|
  {
    if b == [] {
      assert a + b == a;
    } else {
      var front := b[..|b| - 1];
      assert (a + b)[..|a + b| - 1] == a + front;
      ReversedConcat(a, front);
    }
  }

  lemma TailDone<T>(s: seq<T>, i: nat)
    requires i < |s|
    ensures Reversed(s[i..]) == Reversed(s[i + 1..]) + [s[i]]
  {
    assert s[i..] == [s[i]] + s[i + 1..];
    ReversedConcat([s[i]], s[i + 1..]);
  }

  /** Checks every vote of a certificate. */
  method CheckQC(c: Config, k: Keys, blocks: map<BlockId, Block>, qc: QC) returns (ok: bool)
    requires c.members != {}
    ensures ok == QCValid(c, k, blocks, qc)
  {
    if qc.node.Genesis? { return qc.height == 0; }
    if |qc.voters| < Quorum(c) { return false; }
    if qc.node in blocks && blocks[qc.node].height != qc.height { return false; }
    var rest := qc.voters;
    while rest != {}
      invariant rest <= qc.voters
      invariant forall v :: v in qc.voters - rest ==> v in c.members && Verifies(k, Vote(qc.height, qc.node, v))
    {
      var v :| v in rest;
      if v !in c.members || !Verifies(k, Vote(qc.height, qc.node, v)) { return false; }
      rest := rest - {v};
    }
    assert qc.voters - rest == qc.voters;
    return true;
  }

  /** Every block of the tree but the root has its parent in the tree. */
  predicate Closed(blocks: map<BlockId, Block>) {
    forall x :: x in blocks ==> if x.Genesis? then blocks[x].parent.None?
                                else blocks[x].parent == Some(x.parent) && x.parent in blocks
  }

  function Depth(b: BlockId): nat {
    if b.Genesis? then 0 else Depth(b.parent) + 1
  }

  /** Walks from a block towards the root until it meets the lock. */
  method ExtendsLock(blocks: map<BlockId, Block>, b: Block, lock: BlockId) returns (ok: bool)
    requires Closed(blocks)
    ensures ok == (b.parent.Some? && ExtendsFrom(blocks, b.parent.value, lock))
  {
    var cur := b.parent;
    while cur.Some?
      invariant b.parent.Some? && ExtendsFrom(blocks, b.parent.value, lock)
                <==> cur.Some? && ExtendsFrom(blocks, cur.value, lock)
      decreases if cur.Some? then Depth(cur.value) + 1 else 0
    {
      if cur.value == lock { return true; }
      if cur.value !in blocks { return false; }
      cur := blocks[cur.value].parent;
    }
    return false;
  }

  lemma HighestIsMax(ids: set<BlockId>, top: BlockId)
    requires top in ids && forall b :: b in ids ==> Height(b) <= Height(top)
    ensures MaxHeight(ids) == Height(top)
  {
    var b :| b in ids && Height(b) == MaxHeight(ids);
  }

  method HighestBlock(blocks: map<BlockId, Block>) returns (h: nat)
    requires Genesis in blocks && forall b :: b in blocks ==> blocks[b].height == Height(b)
    ensures h == MaxHeight(blocks.Keys)
  {
    h := 0;
    var rest := blocks.Keys;
    ghost var top := Genesis;
    while rest != {}
      invariant rest <= blocks.Keys && top in blocks && h == Height(top)
      invariant forall b :: b in blocks.Keys - rest ==> Height(b) <= h
    {
      var b :| b in rest;
      if blocks[b].height > h { h, top := blocks[b].height, b; }
      rest := rest - {b};
    }
    assert blocks.Keys - rest == blocks.Keys;
    HighestIsMax(blocks.Keys, top);
  }

  lemma CommandsAdd(blocks: map<BlockId, Block>, span: seq<BlockId>, b: BlockId)
    ensures Commands(blocks, span + [b]) ==
            Commands(blocks, span) + (if b in blocks && blocks[b].cmd != "" && !b.Genesis? then [Run(b)] else [])
  {
    assert (span + [b])[..|span|] == span;
  }

  lemma Shift<T>(a: seq<T>, x: T, b: seq<T>)
    ensures (a + [x]) + b == a + ([x] + b)
  {
  }

  /** What is left to collect. */
  function Rest(blocks: map<BlockId, Block>, cur: Option<BlockId>, stop: BlockId): seq<BlockId> {
    if cur.None? then [] else Span(blocks, cur.value, stop)
  }

  /** One step of the walk that collects a span. */
  lemma {:induction false} SpanStep(blocks: map<BlockId, Block>, cur: BlockId, stop: BlockId, taken: seq<BlockId>)
    requires Closed(blocks) && cur in blocks && cur != stop
    ensures Span(blocks, cur, stop) + Reversed(taken) == Rest(blocks, blocks[cur].parent, stop) + Reversed(taken + [cur])
  {
    ReversedAdd(taken, cur);
    var rest := Rest(blocks, blocks[cur].parent, stop);
    assert Span(blocks, cur, stop) == rest + [cur];
    Shift(rest, cur, Reversed(taken));
  }

  /** Collects the blocks from `gp` down to just above `stop`, newest first. */
  method CollectSpan(blocks: map<BlockId, Block>, gp: BlockId, stop: BlockId) returns (span: seq<BlockId>)
    requires Closed(blocks) && gp in blocks
    ensures Reversed(span) == Span(blocks, gp, stop)
    ensures forall b :: b in span ==> b in blocks
  {
    span := [];
    var cur := Some(gp);
    while cur.Some? && cur.value != stop
      invariant cur.Some? ==> cur.value in blocks
      invariant Span(blocks, gp, stop) == Rest(blocks, cur, stop) + Reversed(span)
      invariant forall b :: b in span ==> b in blocks
      decreases if cur.Some? then Depth(cur.value) + 1 else 0
    {
      SpanStep(blocks, cur.value, stop, span);
      span := span + [cur.value];
      cur := blocks[cur.value].parent;
    }
  }

  class LiveReplica {
    const id: Id
    var blocks: map<BlockId, Block>
    var qcHigh: QC
    var head: BlockId
    var bLock: BlockId
    var bExec: BlockId
    var vHeight: nat
    var votes: map<BlockId, set<Id>>
    var qcFormed: set<BlockId>
    var committed: seq<BlockId>
    var journal: seq<Effect>

    ghost function View(): Replica
      reads this
    {
      Replica(id, blocks, qcHigh, head, bLock, bExec, vHeight, votes, qcFormed, committed, journal)
    }

    constructor (c: Config, id: Id)
      ensures View() == NewReplica(c, id) && Sound(View())
    {
      this.id := id;
      blocks := map[Genesis := GenesisBlock(c)];
      qcHigh, head, bLock, bExec := GenesisQC(c), Genesis, Genesis, Genesis;
      vHeight, votes, qcFormed, committed, journal := 0, map[], {}, [], [];
    }

    method ExecuteBlock(b: BlockId)
      requires b in blocks
      modifies `bExec, `committed, `journal
      ensures committed == old(committed) + [b] && bExec == b
      ensures journal == old(journal) + if b in blocks && blocks[b].cmd != "" && !b.Genesis? then [Run(b)] else []
    {
      if |blocks[b].cmd| > 0 && !b.Genesis? { journal := journal + [Run(b)]; }
      bExec := b;
      committed := committed + [b];
    }

    /** Executes the blocks of a span that lists the newest first. */
    method ExecuteSpan(span: seq<BlockId>)
      requires forall b :: b in span ==> b in blocks
      modifies `bExec, `committed, `journal
      ensures committed == old(committed) + Reversed(span)
      ensures journal == old(journal) + Commands(blocks, Reversed(span))
      ensures bExec == if span == [] then old(bExec) else Reversed(span)[|span| - 1]
    {
      var i := |span|;
      ghost var done: seq<BlockId> := [];
      while i > 0
        invariant 0 <= i <= |span| && done == Reversed(span[i..])
        invariant committed == old(committed) + done && journal == old(journal) + Commands(blocks, done)
        invariant bExec == if done == [] then old(bExec) else done[|done| - 1]
      {
        i := i - 1;
        TailDone(span, i);
        CommandsAdd(blocks, done, span[i]);
        done := done + [span[i]];
        ExecuteBlock(span[i]);
      }
      assert span[0..] == span;
    }

    /** Executes the blocks from the executed one up to `gp`, oldest first. */
    method CommitUpTo(gp: BlockId)
      requires Sound(View()) && gp in blocks
      modifies `bExec, `committed, `journal
      ensures View() == HsSpec.CommitUpTo(old(View()), gp)
    {
      var span := CollectSpan(blocks, gp, bExec);
      ExecuteSpan(span);
      journal := journal + [Write(AppliedRecord(bExec))];
    }

    /** Locks and commits below a certified block of the tree. */
    method FoldChain(node: BlockId)
      requires Sound(View())
      modifies `bLock, `bExec, `committed, `journal
      ensures View() == Fold(old(View()), node)
    {
      if node !in blocks { return; }
      var cert := blocks[node];
      if cert.parent.None? { return; }
      var parent := blocks[cert.parent.value];
      if !OneChained(parent, cert) { return; }
      if parent.height > blocks[bLock].height { bLock := parent.id; }
      if parent.parent.None? { return; }
      var gp := blocks[parent.parent.value];
      if OneChained(gp, parent) && gp.height > blocks[bExec].height { CommitUpTo(gp.id); }
    }

    method TakeCertificate(c: Config, k: Keys, qc: QC)
      requires c.members != {} && Sound(View())
      modifies `qcHigh, `bLock, `bExec, `committed, `journal
      ensures View() == OnNewQC(c, k, old(View()), qc)
    {
      var ok := CheckQC(c, k, blocks, qc);
      if !ok || qc.height <= qcHigh.height { return; }
      qcHigh := qc;
      journal := journal + [Write(QCRecord(qc))];
      FoldChain(qc.node);
    }

    method AddBlock(b: Block)
      requires Sound(View()) && Content(b) == Some(b.id) && b.parent.value in blocks
      modifies `blocks, `head, `journal
      ensures View() == Insert(old(View()), b) && Sound(View())
    {
      if b.height > blocks[head].height { head := b.id; }
      blocks := blocks[b.id := b];
      journal := journal + [Write(BlockRecord(b))];
    }

    method IsAcceptable(c: Config, k: Keys, p: Proposal, signed: bool) returns (ok: bool)
      requires c.members != {} && Sound(View())
      ensures ok == Acceptable(c, k, View(), p, signed)
    {
      var b := p.block;
      if Content(b) != Some(b.id) || b.id in blocks || b.height <= blocks[bExec].height { return false; }
      if b.parent.value !in blocks { return false; }
      var valid := CheckQC(c, k, blocks, b.justify);
      if !valid || b.justify.node != b.parent.value || b.height <= blocks[b.parent.value].height { return false; }
      if p.from != c.leader || !signed || b.view != 0 { return false; }
      var above := ExtendsLock(blocks, b, bLock);
      return above || b.justify.height > blocks[bLock].height;
    }

    method Deliver(c: Config, k: Keys, p: Proposal, signed: bool, durable: bool) returns (vote: Option<Vote>)
      requires c.members != {} && Sound(View())
      modifies this
      ensures (View(), vote) == HandleProposal(c, k, old(View()), p, signed, durable)
    {
      vote := None;
      var ok := IsAcceptable(c, k, p, signed);
      if !ok { return; }
      var b := p.block;
      AddBlock(b);
      TakeCertificate(c, k, b.justify);
      if b.height > vHeight {
        vHeight := b.height;
        if durable {
          var v := Vote(b.height, b.id, id);
          journal := journal + [Write(VotedRecord(b.height)), Send(v)];
          vote := Some(v);
        }
      }
    }

    method CountVote(c: Config, k: Keys, v: Vote)
      requires c.members != {} && Sound(View())
      modifies `votes, `qcFormed, `qcHigh, `bLock, `bExec, `committed, `journal
      ensures View() == VoteForBlock(c, k, old(View()), v)
    {
      if v.node !in blocks || v.voter !in c.members || v.height != blocks[v.node].height || !Verifies(k, v) { return; }
      var sofar := if v.node in votes then votes[v.node] else {};
      if v.voter in sofar { return; }
      var all := sofar + {v.voter};
      votes := votes[v.node := all];
      if |all| < Quorum(c) || v.node in qcFormed { return; }
      qcFormed := qcFormed + {v.node};
      TakeCertificate(c, k, QC(v.node, v.height, all));
    }

    method BuildNext(cmd: string) returns (b: Block)
      requires Genesis in blocks && head in blocks && forall x :: x in blocks ==> blocks[x].height == Height(x)
      ensures b == NextBlock(View(), cmd)
    {
      var h := blocks[head].height + 1;
      var top := HighestBlock(blocks);
      if h <= top { h := top + 1; }
      b := Block(Digest(0, h, head, cmd), 0, h, Some(head), cmd, qcHigh);
    }

    method AddHead(b: Block)
      requires Sound(View()) && Content(b) == Some(b.id) && b.parent.value in blocks
      modifies `blocks, `head, `journal
      ensures View() == Insert(old(View()), b).(head := b.id) && Sound(View())
    {
      blocks := blocks[b.id := b];
      head := b.id;
      journal := journal + [Write(BlockRecord(b))];
      assert View() == Insert(old(View()), b).(head := b.id);
    }

    method ProposeBlock(c: Config, k: Keys, cmd: string) returns (p: Option<Proposal>)
      requires c.members != {} && Sound(View())
      modifies this
      ensures if MayPropose(c, old(View())) then p.Some? && (View(), p.value) == Propose(c, k, old(View()), cmd)
              else p.None? && View() == old(View())
    {
      if id != c.leader || qcHigh.node != head { return None; }
      var b := BuildNext(cmd);
      AddHead(b);
      CountVote(c, k, Vote(b.height, b.id, id));
      return Some(Proposal(b, id));
    }
  }
}
