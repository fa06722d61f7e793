/** Recovery: the records of the durable log are replayed in order, then lock, committed block and highest certificate
    are recomputed from the replayed certificates. */
module HsRecovery {
  import opened Options
  import opened HsTypes
  import opened HsSpec

  /** What replay has rebuilt so far: the tree, the certificates in the order of their records, the executed watermark
      and the vote height. */
  datatype Rebuild = Rebuild(blocks: map<BlockId, Block>, qcs: seq<QC>, exec: Option<BlockId>, vHeight: nat)

  function Fresh(c: Config): Rebuild {
    Rebuild(map[Genesis := GenesisBlock(c)], [], None, 0)
  }

  /** One record. A block is taken if its identity matches its contents, its parent is known and it is not. */
  function ApplyRecovered(t: Rebuild, rec: Record): Rebuild {
    match rec
    case BlockRecord(b) =>
      if Content(b) != Some(b.id) || b.parent.value !in t.blocks || b.id in t.blocks then t
      else t.(blocks := t.blocks[b.id := b])
    case QCRecord(qc) => t.(qcs := t.qcs + [qc])
    case AppliedRecord(e) => if e in t.blocks then t.(exec := Some(e)) else t
    case VotedRecord(h) => if h > t.vHeight then t.(vHeight := h) else t
  }

  /** Replays the writes of a journal; whatever else the replica did left no record. */
  function Replay(c: Config, j: seq<Effect>): Rebuild
    decreases |j|
  {
    if j == [] then Fresh(c)
    else
      var t := Replay(c, j[..|j| - 1]);
      var e := j[|j| - 1];
      if e.Write? then ApplyRecovered(t, e.rec) else t
  }

  datatype Pointers = Pointers(qcHigh: QC, lock: BlockId, exec: BlockId)

  function Start(c: Config): Pointers {
    Pointers(GenesisQC(c), Genesis, Genesis)
  }

  /** The chain rules below a replayed certificate. */
  function Raise(blocks: map<BlockId, Block>, p: Pointers, qc: QC): Pointers {
    if qc.height <= p.qcHigh.height then p
    else
      var p1 := p.(qcHigh := qc);
      if qc.node !in blocks || blocks[qc.node].parent.None? || blocks[qc.node].parent.value !in blocks then p1
      else
        var cert := blocks[qc.node];
        var parent := blocks[cert.parent.value];
        if !OneChained(parent, cert) then p1
        else
          var p2 := if parent.height > Height(p.lock) then p1.(lock := parent.id) else p1;
          if parent.parent.None? || parent.parent.value !in blocks then p2
          else
            var gp := blocks[parent.parent.value];
            if OneChained(gp, parent) && gp.height > Height(p.exec) then p2.(exec := gp.id) else p2
  }

  function RaiseAll(blocks: map<BlockId, Block>, p: Pointers, qcs: seq<QC>): Pointers
    decreases |qcs|
  {
    if qcs == [] then p else Raise(blocks, RaiseAll(blocks, p, qcs[..|qcs| - 1]), qcs[|qcs| - 1])
  }

  /** The executed watermark wins if it is higher, and an unknown highest certificate sends the replica back to the
      root. */
  function Settled(c: Config, t: Rebuild, p: Pointers): Pointers {
    var p1 := if t.exec.Some? && t.exec.value in t.blocks && t.blocks[t.exec.value].height > Height(p.exec)
              then p.(exec := t.exec.value) else p;
    if p1.qcHigh.node in t.blocks then p1 else p1.(qcHigh := GenesisQC(c), exec := Genesis)
  }

  function Finish(c: Config, t: Rebuild): Pointers {
    Settled(c, t, RaiseAll(t.blocks, Start(c), t.qcs))
  }

  /** The blocks from the root up to `b`, without the root. */
  function Path(b: BlockId): seq<BlockId> {
    if b.Genesis? then [] else Path(b.parent) + [b]
  }

  /** The replica that a restart finds. Everything up to the committed block counts as committed. */
  function Recover(c: Config, id: Id, j: seq<Effect>): Replica {
    var t := Replay(c, j);
    var p := Finish(c, t);
    Replica(id, t.blocks, p.qcHigh, p.qcHigh.node, p.lock, p.exec, t.vHeight, map[], {}, Path(p.exec), j)
  }

  /** A replica while it recovers. */
  class Recovering {
    var blocks: map<BlockId, Block>
    var recoverQCs: seq<QC>
    var recoverExec: Option<BlockId>
    var vHeight: nat
    var qcHigh: QC
    var head: BlockId
    var bLock: BlockId
    var bExec: BlockId

    ghost function View(): Rebuild
      reads this
    {
      Rebuild(blocks, recoverQCs, recoverExec, vHeight)
    }

    /** Nothing has moved the pointers off the root yet. */
    ghost predicate AtStart(c: Config)
      reads this
    {
      qcHigh == GenesisQC(c) && head == Genesis && bLock == Genesis && bExec == Genesis
    }

    constructor (c: Config)
      ensures View() == Replay(c, []) && AtStart(c)
    {
      blocks, recoverQCs, recoverExec, vHeight := map[Genesis := GenesisBlock(c)], [], None, 0;
      qcHigh, head, bLock, bExec := GenesisQC(c), Genesis, Genesis, Genesis;
    }

    method ApplyRecord(rec: Record)
      modifies `blocks, `recoverQCs, `recoverExec, `vHeight
      ensures View() == ApplyRecovered(old(View()), rec)
    {
      match rec {
        case BlockRecord(b) =>
          if Content(b) != Some(b.id) || b.parent.value !in blocks || b.id in blocks { return; }
          blocks := blocks[b.id := b];
        case QCRecord(qc) => recoverQCs := recoverQCs + [qc];
        case AppliedRecord(e) => if e in blocks { recoverExec := Some(e); }
        case VotedRecord(h) => if h > vHeight { vHeight := h; }
      }
    }

    method ReplayLog(c: Config, j: seq<Effect>)
      requires View() == Replay(c, [])
      modifies `blocks, `recoverQCs, `recoverExec, `vHeight
      ensures View() == Replay(c, j)
    {
      var i := 0;
      while i < |j|
        invariant i <= |j| && View() == Replay(c, j[..i])
      {
        assert j[..i + 1][..i] == j[..i];
        if j[i].Write? { ApplyRecord(j[i].rec); }
        i := i + 1;
      }
      assert j[..|j|] == j;
    }

    method FinishRecovery(c: Config)
      requires AtStart(c)
      modifies this
      ensures blocks == old(blocks) && vHeight == old(vHeight) && recoverQCs == [] && recoverExec == None
      ensures Pointers(qcHigh, bLock, bExec) == Finish(c, old(View())) && head == qcHigh.node
    {
      var p := Pointers(qcHigh, bLock, bExec);
      var i := 0;
      while i < |recoverQCs|
        invariant i <= |recoverQCs| && p == RaiseAll(blocks, Start(c), recoverQCs[..i])
        invariant unchanged(this)
      {
        assert recoverQCs[..i + 1][..i] == recoverQCs[..i];
        p := FoldCertificate(p, recoverQCs[i]);
        i := i + 1;
      }
      assert recoverQCs[..i] == recoverQCs;
      if recoverExec.Some? && recoverExec.value in blocks && blocks[recoverExec.value].height > Height(p.exec) {
        p := p.(exec := recoverExec.value);
      }
      if p.qcHigh.node !in blocks { p := p.(qcHigh := qcHigh, exec := Genesis); }
      qcHigh, head, bLock, bExec := p.qcHigh, p.qcHigh.node, p.lock, p.exec;
      recoverQCs, recoverExec := [], None;
    }

    method FoldCertificate(p: Pointers, qc: QC) returns (p': Pointers)
      ensures p' == Raise(blocks, p, qc)
    {
      p' := p;
      if qc.height <= p.qcHigh.height { return; }
      p' := p'.(qcHigh := qc);
      if qc.node !in blocks { return; }
      var cert := blocks[qc.node];
      if cert.parent.None? || cert.parent.value !in blocks { return; }
      var parent := blocks[cert.parent.value];
      if !OneChained(parent, cert) { return; }
      if parent.height > Height(p'.lock) { p' := p'.(lock := parent.id); }
      if parent.parent.None? || parent.parent.value !in blocks { return; }
      var gp := blocks[parent.parent.value];
      if OneChained(gp, parent) && gp.height > Height(p'.exec) { p' := p'.(exec := gp.id); }
    }
  }
}
